# Support chat widget: the message-send flow

This project models the one piece of logic in the support chat page
(`app/page.tsx`): what happens when the user sends a message.

- **Transcript controller** (`transcript.dfy`, module `Transcript`). The page
  keeps an ordered list of messages, an input buffer and a loading flag. A send
  either is rejected and changes nothing, or appends one user message, clears
  the input, sets loading and posts a request. When the request settles it
  appends exactly one agent message and clears loading. The settled request
  can be a transport or parse failure, an application failure, or a success.
  The asynchronous `handleSendMessage` is split into two methods of the class
  `ChatSession`: `Begin` (everything before the awaited `fetch`) and `Settle`
  (everything after it, given the `Outcome`). `SendMessage` runs both, as one
  call of the handler does.
- **Response normaliser** (`normalizer.dfy`, module `Normalizer`). A successful
  reply's `response` payload is a string, an object with several candidate
  text fields, or missing. `Normalize` turns it into a display text and an
  escalation flag, following JavaScript's truthiness rules.
- **JavaScript semantics** (`js.dfy`, module `Js`). This module holds the
  built-ins the handler relies on: truthiness of strings, `||`,
  `String.prototype.trim`, and the decimal text of a number in a template
  literal (used in message ids). `trim` removes the WhiteSpace and
  LineTerminator code points of sections 12.2 and 12.3 of ECMA-262.

`ChatSession.Valid()` is the invariant the page keeps:

- user and agent messages alternate, starting with the user;
- loading is set exactly when the last message is the user's;
- the input stays empty while loading;
- no user message is empty or carries an escalation flag.

The invariant depends on the page's controls. `handleSendMessage` itself does
not check for a request in flight. The input field and the send button are
disabled while loading, and the quick-reply chips are shown only on an empty,
idle transcript. So `Begin`, `Type`, `QuickReply` and `KeyPress` require
`!loading`, which the controls supply.

Some behaviours of the code are worth spelling out:

- `handleSendMessage` does not itself reject a send while a request is
  pending; only the disabled controls prevent it.
- A quick reply sends its topic verbatim, without trimming it; only the input
  buffer is trimmed.
- Not every reply has visible text. An object payload always gives non-empty
  text (`Normalize` proves it), but a string payload `""` and a missing
  payload both give an empty agent message.
- Among the candidate fields of an object payload, the first *truthy* one is
  used, not the first one present, so an empty `agent_response` falls through
  to `message`.

## Model

| member | source | states |
|---|---|---|
| `Js.TrimStart` | app/page.tsx:77 | the result is the suffix of the input left after its leading whitespace; all of the dropped part is whitespace; the result is empty exactly when the input is all whitespace |
| `Js.TrimEnd` | app/page.tsx:77 | the same for trailing whitespace and a prefix |
| `Js.Trim` | app/page.tsx:77 | `inputValue.trim()` neither starts nor ends with whitespace, is no longer than the input, and is empty exactly when the input is all whitespace |
| `Js.TrimIsSlice` | app/page.tsx:77 | `inputValue.trim()` is one contiguous slice of the input, starting where the leading whitespace ends; everything dropped on either side is whitespace |
| `Js.Decimal` | app/page.tsx:83 | the text of `Date.now()` in an id is a non-empty string of decimal digits, with a leading zero only for 0 |
| `Js.DecimalRoundTrip` | app/page.tsx:83 | reading the digits back gives the number |
| `Js.DecimalInjective` | app/page.tsx:83 | two numbers have the same decimal text exactly when they are equal |
| `Normalizer.FirstTruthy` | app/page.tsx:117-121 | a chain of JavaScript or-operators picks the first truthy candidate: every earlier candidate is falsy, and "none" means all are falsy |
| `Normalizer.Normalize` | app/page.tsx:110-123 | only an object payload with `escalation_suggested` true suggests escalation; an object payload never gives empty text, because the serialisation fallback is never empty |
| `Normalizer.NormalizeString` | app/page.tsx:114-115 | a string payload is shown verbatim, without escalation |
| `Normalizer.NormalizeAbsent` | app/page.tsx:110-116 | a missing or null payload gives empty text and no escalation |
| `Normalizer.NormalizeObject` | app/page.tsx:116-122 | an object is shown as its first non-empty field among `agent_response`, `message` and `response`, in that order, or else as `JSON.stringify` of it; escalation holds exactly when `escalation_suggested` is true |
| `Normalizer.NormalizeExamples` | app/page.tsx:110-123 | `"hello"` gives ("hello", false); `{agent_response:"hi", escalation_suggested:true}` gives ("hi", true); `{message:"fallback text"}` gives ("fallback text", false); `{unknown:"x"}` gives its serialisation and false |
| `Transcript.MessageIdCollision` | app/page.tsx:83-146 | two message ids are equal exactly when they come from the same id template in the same millisecond: a user message and its reply never share an id, but two sends in one millisecond do |
| `Transcript.SendRejected` | app/page.tsx:77-79 | a send is rejected exactly when `messageText` is missing or empty and the input is all whitespace |
| `Transcript.AgentReply` | app/page.tsx:125-152 | the reply to a settled request is an agent message stamped with the settle time; its id follows the `-agent` template on success and the `-error` template otherwise; it carries an escalation flag exactly on success; the error replies are never empty |
| `Transcript.ReplyOnSuccess` | app/page.tsx:125-133 | a success reply shows the normalised text with its escalation flag |
| `Transcript.ReplyOnAppFailure` | app/page.tsx:134-141 | an application failure reply is the fixed prefix followed by the agent's error, or by "Unable to process your request" when the error is missing or empty |
| `Transcript.ReplyOnTransport` | app/page.tsx:143-152 | a transport or parse failure reply is the fixed connection-error text, and no application failure reply is equal to it |
| `Transcript.AppendKeepsShape` | app/page.tsx:89-152 | appending the message whose turn it is (user on an even length, agent on an odd one) keeps the transcript alternating and its user messages well formed |
| `Transcript.ChatSession.constructor` | app/page.tsx:59-66 | the page starts with no messages, an empty input, not loading, a session id from one clock reading and a user id from another |
| `Transcript.ChatSession.Type` | app/page.tsx:243 | typing replaces the input and changes nothing else |
| `Transcript.ChatSession.Begin` | app/page.tsx:76-104 | a rejected send changes nothing and posts nothing; an accepted one appends exactly one user message with the text to send, leaves earlier messages as they were, clears the input, sets loading, and posts that text with the agent, user and session ids |
| `Transcript.ChatSession.Settle` | app/page.tsx:109-156 | settling appends exactly one agent reply for the outcome, keeps every earlier message, and clears loading, whatever the outcome |
| `Transcript.ChatSession.SendMessage` | app/page.tsx:76-157 | a completed round trip grows the transcript by exactly two messages, the user's and the reply, and ends idle; a rejected send adds nothing |
| `Transcript.ChatSession.QuickReply` | app/page.tsx:159-161 | a chip's topic is sent verbatim and always accepted |
| `Transcript.ChatSession.KeyPress` | app/page.tsx:163-168 | Enter without Shift sends the input: the send is accepted exactly when the input is not all whitespace; an accepted one appends the user message with the trimmed input, clears the input, sets loading and posts that text with the agent, user and session ids, and a rejected one changes nothing; any other key changes nothing |
| `Transcript.SendButtonMatchesGuard` | app/page.tsx:252 | the send button is enabled exactly when a send of the input would be accepted and no request is in flight |
| `Transcript.QuickReplyAccepted` | app/page.tsx:51-56 | every offered topic is non-empty, so it is the text sent |

## Left out

- The `fetch` call, its headers and `response.json()` are input and output. They are reduced to the `Outcome` given to `Settle`. A throwing `fetch`, a body that does not parse, and a `null` body (reading `success` from it throws) all take the `Transport` path; any other body whose `success` is falsy takes the `AppFailure` path.
- Overlapping requests are left out. The model is the sequential flow the disabled controls enforce: `Begin` requires that no request is in flight.
- The clock is a parameter `now`. One value is used for both `Date.now()` (the id) and `new Date()` (the timestamp) of a message, although the source reads the clock twice. The session id and the user id are built from two separate clock values, as the page reads the clock once for each. Message ids are not claimed to be unique: `MessageIdCollision` shows that two messages of one kind made in the same millisecond share an id.
- Non-string values in the candidate text fields, and non-boolean values of `escalation_suggested` and `success`, are left out. The fields are modelled as strings and booleans that may be missing.
- An array payload is left out. It is an object to `typeof`, and its serialisation would be in brackets, not braces.
- A payload that is a number or a boolean is folded into `Absent`, since it takes the same path as a missing one.
- `Normalizer.Serialize` models `JSON.stringify` of an object only as its member list between braces. The member list is a field of the payload, and its relation to the other fields is not modelled.
- `console.error`, scrolling, input focus, and the widget's open and close state are rendering concerns with no effect on the transcript.
- The 500-character `maxLength` is a DOM attribute on the input field. It is not enforced by the handler, and the quick-reply path bypasses it.
- The components under `src/components/` are markup. ChatMessage's relative-time formatting uses the `date-fns` library, which is not part of this model.
