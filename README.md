# Travel assistant chat and forms: a Dafny model

This project models the client-side logic of a travel landing page written in
React and TypeScript. Two components hold a chat with an n8n workflow webhook:

- `AIChatPage` is the full-page assistant.
- `ChatBot` is a near-duplicate pop-up widget.

Three smaller components are form and status state machines:

- `LoginModal` signs a user in or up.
- `UserProfile` edits the signed-in user's names.
- `DatabaseSetup` provisions a table.

Each source file is one Dafny module. Each component's React state is a
`class Component` whose fields are the `useState` variables. Each event
handler is a method. An `async` handler is split at its `await` into two
methods:

- `Begin…` is the synchronous part, up to the foreign call. It returns the
  call it makes, if any.
- `Complete…` is the continuation. It receives how the call settled and runs
  the `catch` and `finally` blocks.

The network, `Math.random` and the clock enter as parameters:

- A fetch outcome: a network error, or an HTTP status with a body that is
  either malformed or carries optional `response` and `message` strings.
- A `real` in `[0, 1)` for each random draw.
- A `nat` millisecond reading for each clock.

Because of that, `sendMessageToN8N` is a pure function of the configured URL,
the outcome and the draw.

Shared modules:

- `Js` holds the JavaScript built-ins the code relies on, written out. They
  are ECMAScript `trim`, `includes`, `||` on optional strings, UTF-16
  `length`, `Number#toString` and `Math.floor(Math.random() * n)`.
- `Effects` holds the opaque results of foreign calls (`{success, error?}` or
  a throw) and settled promises.
- `Webhook` holds what both chat files share word for word: the POST payload,
  the `session_${Date.now()}` id and the `try` block that turns a response
  into a reply.

What is proved, in short:

- Both selectors never reject: once the request has settled, they resolve to
  a non-empty reply.
- Unconfigured, no request is built, the reply comes from the fallback pool,
  and the network outcome plays no part.
- An ok JSON body gives `response || message || default`.
- On failure, the page answers with one fixed string that is not in its pool;
  the widget answers from its pool.
- The widget's URL check is strictly stronger than the page's.
- Calls at different clock readings get different session ids.
- Message ids can collide.
- Each chat conversation alternates user and bot messages after the greeting,
  and the busy flag is set exactly while a reply is pending.
- A blank or busy submit changes nothing.
- Each form handler's whole effect is stated: validation order, which foreign
  call is made with which arguments, error texts, and `isLoading` reset in
  `finally`.

## Behaviour worth noting

- The session id is regenerated on every call, not held per conversation
  (`Webhook.SessionIdPerCall`).
- Message ids are clock readings and are not unique
  (`AIChatPage.IdsMayCollide`).
- `AIChatPage`'s `catch` answers with one fixed string, not with a fallback
  reply.
- The unconfigured check looks only for the placeholder host names. Any
  other non-empty URL counts as configured.

`src/components/ChatBot.tsx` does not parse as written. `sendMessageToN8N`
lacks its closing brace. The file also uses `setShowSuggestions`,
`quickSuggestions` and `handleSuggestionClick`, which it never declares. The
model follows the evident intent: `sendMessageToN8N` and `handleSendMessage`
are two sibling functions, and the suggestions feature is left out.

## Model

| member | source | states |
|---|---|---|
| `Js.Trim` | src/components/AIChatPage.tsx:93 | `trim` gives the slice left after stripping ECMAScript whitespace from both ends. It is empty exactly when the input is all whitespace; otherwise it starts and ends with a non-whitespace character. |
| `Js.TrimStart` | src/components/AIChatPage.tsx:97 | The leading-whitespace half of `trim`: a suffix whose prefix is all whitespace and which starts with non-whitespace. |
| `Js.TrimEnd` | src/components/AIChatPage.tsx:97 | The trailing-whitespace half of `trim`: a prefix whose rest is all whitespace and which ends with non-whitespace. |
| `Js.ContainsIffOccurs` | src/components/AIChatPage.tsx:59 | `includes` holds exactly when the needle occurs at some index of the URL. |
| `Js.Utf16Length` | src/components/LoginModal.tsx:50 | `password.length` counts UTF-16 code units: between one and two per code point. |
| `Js.NatToString` | src/components/AIChatPage.tsx:96 | `Date.now().toString()` gives only decimal digits; it is one digit exactly when the number is below 10, it has no leading zero, and it ends with the last digit. |
| `Js.NatToStringInjective` | src/components/AIChatPage.tsx:96 | Different clock readings render to different id strings. |
| `Js.RandomIndex` | src/components/AIChatPage.tsx:64 | `Math.floor(Math.random() * length)` is a valid index into the pool. |
| `Webhook.SessionId` | src/components/AIChatPage.tsx:76 | The session id is `session_` followed by the clock reading of the call. |
| `Webhook.SessionIdPerCall` | src/components/ChatBot.tsx:67 | Two calls at different times carry different session ids, so the id does not correlate the turns of one conversation. |
| `Webhook.PostFor` | src/components/AIChatPage.tsx:68-78 | The POST goes to the configured URL with the message text, the call's timestamp and the session id. |
| `Webhook.TryBody` | src/components/AIChatPage.tsx:67-85 | The `try` block rejects exactly on a network error, a status outside 200-299 or a non-JSON body. Otherwise it resolves to a non-empty `response`, else a non-empty `message`, else the fixed default. |
| `Webhook.NotOkIgnoresBody` | src/components/ChatBot.tsx:71-73 | A status that is not ok rejects whatever the body holds. |
| `AIChatPage.RequestFor` | src/components/AIChatPage.tsx:59-78 | A request is built exactly when the URL is set, not empty and free of the placeholder host, and it is the `PostFor` request. |
| `AIChatPage.SendMessageToN8N` | src/components/AIChatPage.tsx:58-90 | The promise never rejects: once the request has settled, it resolves to a non-empty reply. Unconfigured, the reply is in the two-entry pool. Configured, it is the `try` block's value, or the fixed catch reply when that block rejects. |
| `AIChatPage.UnconfiguredMakesNoRequest` | src/components/AIChatPage.tsx:59-65 | Unconfigured, no request exists and the reply does not depend on the network outcome. |
| `AIChatPage.OkReplyCascade` | src/components/AIChatPage.tsx:84-85 | Configured with an ok JSON body, the reply is a non-empty `response`, else a non-empty `message`, else `"I'm here to help with your travel planning!"`. |
| `AIChatPage.FailureRepliesFixed` | src/components/AIChatPage.tsx:80-89 | Configured, a network failure, a non-ok status or a malformed body all give the one fixed catch string, which is not in the pool. |
| `AIChatPage.InitialMessage` | src/components/AIChatPage.tsx:20-35 | The opening message is a bot message with id `'1'` and four related questions. |
| `AIChatPage.UserMessage` | src/components/AIChatPage.tsx:95-100 | A user message carries the given text, the decimal clock id and no hints. |
| `AIChatPage.BotMessage` | src/components/AIChatPage.tsx:109-122 | A bot reply carries the reply text and id `now + 1`. Its hints follow the three draws: `> 0.5`, `> 0.3`, and `> 0.5` for the follow-up questions. |
| `AIChatPage.ErrorMessage` | src/components/AIChatPage.tsx:127-132 | The controller's catch message is a bot message with the connection-error text and no hints. |
| `AIChatPage.IdsMayCollide` | src/components/AIChatPage.tsx:96-110 | A bot reply completed at `t` and a user message sent at `t + 1` are different messages with the same id. |
| `AIChatPage.Component.constructor` | src/components/AIChatPage.tsx:20-38 | The page mounts with the initial message only, an empty input, and not busy or listening. |
| `AIChatPage.Component.SetInputText` | src/components/AIChatPage.tsx:346 | Typing sets the input and nothing else. |
| `AIChatPage.Component.HandleRelatedQuestion` | src/components/AIChatPage.tsx:146-148 | Picking a related question only sets the input: nothing is appended or sent. |
| `AIChatPage.Component.ToggleListening` | src/components/AIChatPage.tsx:150-152 | The microphone flag flips and nothing else changes. |
| `AIChatPage.Component.BeginSend` | src/components/AIChatPage.tsx:92-104 | With blank trimmed input or a pending reply, nothing changes. Otherwise one user message with the trimmed text is appended, the input becomes `''`, the busy flag is set and the trimmed text is returned. The alternation invariant is kept. |
| `AIChatPage.Component.CompleteSend` | src/components/AIChatPage.tsx:106-136 | Exactly one bot message is appended: the reply, or the error message had the promise rejected. The busy flag ends false and the alternation invariant is kept. |
| `AIChatPage.SendTurn` | src/components/AIChatPage.tsx:92-137 | A whole turn appends the user message and then the bot message with `SendMessageToN8N`'s reply, so the error message can never appear. The request built is `RequestFor` of the trimmed text, and, once the request has settled, the page ends idle with the microphone flag as it was. |
| `ChatBot.RequestFor` | src/components/ChatBot.tsx:49-69 | A request is built exactly when the URL is set, not empty and free of both placeholder hosts. |
| `ChatBot.Fallback` | src/components/ChatBot.tsx:51-55 | The random pick is one of the two pool strings. |
| `ChatBot.SendMessageToN8N` | src/components/ChatBot.tsx:47-85 | The promise never rejects: once the request has settled, it resolves to a non-empty reply. Unconfigured, or when the `try` block rejects, the reply is in the pool; otherwise it is the `try` block's value. |
| `ChatBot.UnconfiguredMakesNoRequest` | src/components/ChatBot.tsx:49-55 | Unconfigured, no request exists and the reply does not depend on the network outcome. |
| `ChatBot.OkReplyCascade` | src/components/ChatBot.tsx:75-76 | Configured with an ok JSON body, the reply is a non-empty `response`, else a non-empty `message`, else the fixed default. |
| `ChatBot.FailuresUsePool` | src/components/ChatBot.tsx:71-85 | Any outcome except an ok JSON body gives the same pool reply as an unconfigured widget would for the same draw. |
| `ChatBot.ConfiguredStricterThanPage` | src/components/ChatBot.tsx:49 | Any URL the widget posts to, the page posts to too. `your-actual-n8n-instance.com` is a URL the page posts to and the widget does not. |
| `ChatBot.ActualPlaceholderWitness` | src/components/ChatBot.tsx:49 | `includes` finds the second placeholder host in itself and does not find the page's placeholder host in it. |
| `ChatBot.InitialMessage` | src/components/ChatBot.tsx:17-24 | The widget opens with a single bot greeting with id `'1'`. |
| `ChatBot.UserMessage` | src/components/ChatBot.tsx:89-94 | A user message carries the given text and the decimal clock id. |
| `ChatBot.BotMessage` | src/components/ChatBot.tsx:104-109 | A bot message carries the text and id `now + 1`. |
| `ChatBot.Component.constructor` | src/components/ChatBot.tsx:17-26 | The widget mounts with the greeting only, an empty input and not busy. |
| `ChatBot.Component.SetInputText` | src/components/ChatBot.tsx:239 | Typing sets the input and nothing else. |
| `ChatBot.Component.BeginSend` | src/components/ChatBot.tsx:86-98 | With blank trimmed input or a pending reply, nothing changes. Otherwise one user message with the trimmed text is appended, the input is cleared and the busy flag is set. |
| `ChatBot.Component.CompleteSend` | src/components/ChatBot.tsx:101-123 | Exactly one bot message is appended (the reply or the connection-error text) and the busy flag ends false. |
| `ChatBot.SendTurn` | src/components/ChatBot.tsx:86-124 | A whole turn appends the user message and the bot message with `SendMessageToN8N`'s reply, and, once the request has settled, the widget ends idle. |
| `LoginModal.FormData.With` | src/components/LoginModal.tsx:26 | The computed-key update sets the named field and keeps the other three. |
| `LoginModal.SignupValidation` | src/components/LoginModal.tsx:45-53 | `'Please fill in all fields'` is given exactly when a trimmed name is blank. `'Password must be at least 6 characters long'` is given exactly when both names are filled and the password is under 6 UTF-16 units. Otherwise there is no error. |
| `LoginModal.PlanSubmit` | src/components/LoginModal.tsx:36-60 | Login mode calls `login(email, password)` without checks. Signup mode either fails validation or calls `signup` with all four fields. |
| `LoginModal.InvalidOnlyInSignupMode` | src/components/LoginModal.tsx:44-53 | Only signup is refused before the call, always with one of the two messages, and the name check wins. |
| `LoginModal.FailureText` | src/components/LoginModal.tsx:38-42 | Success leaves no error. A failure gives a non-empty `result.error`, else `'Login failed'` (or `'Signup failed'`), and a throw gives `'An unexpected error occurred'`. |
| `LoginModal.Component.constructor` | src/components/LoginModal.tsx:11-20 | The dialog opens in login mode with four empty fields, no error and not busy. |
| `LoginModal.Component.HandleInputChange` | src/components/LoginModal.tsx:24-28 | Only the named field changes and the error clears. |
| `LoginModal.Component.ToggleMode` | src/components/LoginModal.tsx:75-79 | The mode flips, the error clears and all four fields become empty. |
| `LoginModal.Component.BeginSubmit` | src/components/LoginModal.tsx:30-60 | The call returned is `PlanSubmit`'s, with busy set and no error. A failed signup validation shows its message, makes no call and ends not busy. The call returned is the one left pending. |
| `LoginModal.Component.CompleteSubmit` | src/components/LoginModal.tsx:37-72 | It completes only the call `BeginSubmit` left pending. `onClose` is called and the form is emptied exactly on success; otherwise the error is `FailureText` of that call. The busy flag ends false and nothing is pending. |
| `UserProfile.FormData.With` | src/components/UserProfile.tsx:31 | The computed-key update sets the named field and keeps the other. |
| `UserProfile.FormFor` | src/components/UserProfile.tsx:13-16 | The form holds the user's first and last name, or two empty fields when nobody is signed in. |
| `UserProfile.FailureText` | src/components/UserProfile.tsx:46-52 | Success leaves no error. A failure gives a non-empty `result.error`, else `'Failed to update profile'`, and a throw gives `'An unexpected error occurred'`. |
| `UserProfile.Component.constructor` | src/components/UserProfile.tsx:11-18 | The dialog mounts with `FormFor(user)`, not editing, no error and not busy. |
| `UserProfile.Component.UserChanged` | src/components/UserProfile.tsx:20-27 | When the user becomes non-null, the form takes that user's names; on sign-out the form is kept. |
| `UserProfile.Component.HandleInputChange` | src/components/UserProfile.tsx:29-33 | Only the named field changes and the error clears. |
| `UserProfile.Component.StartEditing` | src/components/UserProfile.tsx:178 | The Edit button turns on edit mode and nothing else. |
| `UserProfile.Component.BeginSave` | src/components/UserProfile.tsx:35-45 | With a blank trimmed name, the error is `'Please fill in all fields'`, no call is made and the busy flag is untouched. Otherwise the error clears, busy is set and the form's names are passed to `updateProfile`. |
| `UserProfile.Component.CompleteSave` | src/components/UserProfile.tsx:44-56 | Success leaves edit mode; failure or a throw stays in edit mode with `FailureText`. The busy flag ends false. |
| `UserProfile.Component.HandleCancel` | src/components/UserProfile.tsx:58-65 | The form goes back to `FormFor(user)`, edit mode ends and the error clears. |
| `DatabaseSetup.Settle` | src/components/DatabaseSetup.tsx:15-27 | Success gives `'user_profiles table created successfully!'`. A failure gives `'error'` with a non-empty `result.error`, else `'Failed to create table'`, and a throw gives `'error'` with `'An unexpected error occurred'`. The status is never idle and the message never empty afterwards. |
| `DatabaseSetup.Component.constructor` | src/components/DatabaseSetup.tsx:6-8 | The panel starts idle, not creating, with no message. |
| `DatabaseSetup.Component.BeginCreate` | src/components/DatabaseSetup.tsx:10-13 | Creating is set, the status becomes `'idle'`, the message becomes `''`, and the button is disabled. |
| `DatabaseSetup.Component.CompleteCreate` | src/components/DatabaseSetup.tsx:15-30 | Status and message are as `Settle` gives them and creating ends false. The button stays disabled after a success and is enabled again after an error (line 60). |

## Left out

- HTTP itself is not modelled: `fetch`, headers, JSON serialisation and `response.json()`. They are replaced by an abstract outcome. A `response` or `message` field that holds a truthy non-string JSON value is not modelled.
- `Math.random` is a parameter in `[0, 1)`. No distribution is modelled.
- `Date.now()` and `new Date()` are one `nat` reading per handler phase. The source reads the clock separately for an id and a timestamp, and those readings may differ by a millisecond. The ISO-8601 rendering of the timestamp is not modelled.
- Strings are sequences of code points. `includes` on UTF-16 code units agrees with this for the ASCII placeholder hosts used here.
- Console logging is not modelled: the `console.warn` calls (src/components/AIChatPage.tsx:87; src/components/ChatBot.tsx:50, :78) and the `console.error` calls (src/components/AIChatPage.tsx:126; src/components/ChatBot.tsx:113). None of them changes state or a reply.
- A request or a response body that never settles is not modelled. The source sets no timeout and no abort on `fetch` (src/components/AIChatPage.tsx:68, :84; src/components/ChatBot.tsx:59, :75). Such a turn would leave `isLoading` true and the send button disabled for good (src/components/AIChatPage.tsx:368, src/components/ChatBot.tsx:247). Every proved fact about a reply assumes the request has settled.
- The browser's form constraint validation is not modelled. In signup mode the name fields are `required` (src/components/LoginModal.tsx:118, :130), and the email is `type="email"` and `required` (:139, :145), as is the password (:158). The model lets through every input, including ones the browser would stop before `onSubmit` runs. So `'Please fill in all fields'` is reachable in the browser only with whitespace-only names, and `login` never sees an empty email or password there. Every proved fact still holds for the inputs the browser admits.
- Rendering is not modelled: JSX, scrolling, input focus effects, the loading indicator and styling.
- `handleKeyPress` is left out: it only calls `handleSendMessage` on Enter without Shift, which `BeginSend` models.
- `LoginModal`'s `showPassword` toggle and `UserProfile`'s `handleLogout` are left out. Both are presentational or a foreign call.
- `ChatBot`'s quick-suggestions feature is left out: its state and handlers are never declared in the file.
- The authentication hook, the database and Supabase client modules, and the chat type declarations are not part of this model. Their results enter only as `{success, error?}` values or a throw.
- The page shell, hero and header components are not part of this model.
- `AIChatPage.Component.CompleteSend` and `ChatBot.Component.CompleteSend` require the busy flag to be set. Only an accepted send schedules the continuation, and nothing else clears the flag before it runs.
