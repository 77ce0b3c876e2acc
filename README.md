# finTechChatbot in Dafny

A verified model of the two pieces of the finTechChatbot repository that
carry behaviour beyond plumbing:

- **`formatAsJsonInput`** (`utils/codeFormatter.js`), which escapes
  backslash, double quote and line feed with three chained global
  `replace` calls. `CodeFormatter.FormatAsJsonInput` keeps the three
  passes as written (`ReplaceAll` is one `replace(/c/g, rep)`), and
  `CodeFormatter.Escape` is the single per-character map they amount to.
  The lemmas prove the two equal and then prove the output's length, the
  absence of raw line feeds, that every quote is escaped, that a
  left-to-right decoder inverts it, that it is not idempotent, and exactly
  when the output is a valid JSON string body in the sense of section 7 of
  RFC 8259. Only LF is escaped among the control characters, so CR, TAB
  and the other characters of U+0000–U+001F make the output invalid JSON.
- **The chat widget `AiChatbot`** (`controllers/chat.controller.js`), without
  its rendering. `Chat.BuildPayload` is the request body's `messages`
  array. `Chat.ChatWidget` is a class holding the widget's three pieces of
  state, `messages`, `isLoading` and `error`. Its methods follow
  `handleSubmit` and `sendMessage`. `sendMessage` is split at its
  `await fetch` into `BeginSend` and `Receive`, so that the state in
  flight can be observed and turns can interleave. `JsString.Trim` is
  `String.prototype.trim`.

Modules: `Wrappers` (an `Option` type), `CodeFormatter`, `JsString`, `Chat`.

The request body is built from `messages` as captured when the submit
handler ran. React state updates are not visible inside the running
handler, so that transcript does not yet hold the user turn being
submitted. The new turn therefore appears once in the payload, as its last
element. `HandleSubmit` states this as `BuildPayload(old(messages), …)`.

The network call is an input. `FetchResult` is either `Received` with the
parsed body or `Failed`; `Failed` stands for a rejected `fetch`, a
non-`ok` status and a body that does not parse, which all reach the same
`catch`. Ids and timestamps (`Date.now()`, `new Date()`) are parameters.

## Model

| member | source | states |
|---|---|---|
| `CodeFormatter.ThreePassesAreOneMap` | utils/codeFormatter.js:1-7 | The three ordered replacements equal one per-character map: `\` to `\\`, `"` to `\"`, LF to `\n`, every other character unchanged |
| `CodeFormatter.BackslashPassMustComeFirst` | utils/codeFormatter.js:3-5 | With the backslash pass moved last, `"` becomes `\\"` rather than `\"`, and that output no longer decodes |
| `CodeFormatter.EscapeLength` | utils/codeFormatter.js:2-6 | Output length is the input length plus the number of backslashes, quotes and line feeds in the input |
| `CodeFormatter.EscapeHasNoLineFeed` | utils/codeFormatter.js:5 | The output contains no raw line feed |
| `CodeFormatter.EscapeUnchangedIff` | utils/codeFormatter.js:2-6 | The empty string maps to itself; any input is returned unchanged if and only if it contains none of backslash, quote, line feed |
| `CodeFormatter.EscapeBackslashCount` | utils/codeFormatter.js:3-5 | The output has two backslashes per input backslash and one per input quote and per input line feed |
| `CodeFormatter.EscapeNotIdempotent` | utils/codeFormatter.js:3 | For an input holding any of the three special characters, escaping twice yields strictly more backslashes than escaping once, so the two results differ |
| `CodeFormatter.EscapeEndsEven` | utils/codeFormatter.js:3-5 | The output never ends inside an escape: its final run of backslashes has even length |
| `CodeFormatter.QuotesAreEscaped` | utils/codeFormatter.js:3-4 | Every `"` of the output is preceded by a backslash, and the run of backslashes before it has odd length, so that backslash is not itself escaped |
| `CodeFormatter.DecodeEscape` | utils/codeFormatter.js:2-6 | Decoding `\\`, `\"`, `\n` left to right on the output recovers the input |
| `CodeFormatter.EscapeDecode` | utils/codeFormatter.js:2-6 | Every text the decoder accepts is exactly the escape of what it decodes to (the decoder is a two-sided inverse on its domain) |
| `CodeFormatter.EscapeInjective` | utils/codeFormatter.js:2-6 | Two inputs with the same escaped output are equal |
| `CodeFormatter.EscapeIsJsonBodyIff` | utils/codeFormatter.js:2-5 | The output is a valid RFC 8259 section 7 string body if and only if the input has no control character other than LF |
| `CodeFormatter.RawControlCharactersSurvive` | utils/codeFormatter.js:2-5 | CR and TAB pass through unescaped, and the result is not a valid JSON string body |
| `JsString.LeadingWhitespace` | controllers/chat.controller.js:108 | The count is at most the length; every character before it is white space, and the character at it, if any, is not |
| `JsString.TextEnd` | controllers/chat.controller.js:108 | The position is at most the length; every character from it on is white space, and the character just before it, if any, is not |
| `JsString.Trim` | controllers/chat.controller.js:108 | `input.value.trim()` is a contiguous part of the input with only white space dropped on either side, and is trimmed at both ends when non-empty |
| `JsString.TrimEmptyIff` | controllers/chat.controller.js:108-110 | The trimmed message is empty if and only if the input is empty or white space only |
| `Chat.RoleOf` | controllers/chat.controller.js:76 | The role is `"user"` if and only if the entry's type is user, and `"assistant"` otherwise |
| `Chat.History` | controllers/chat.controller.js:75-78 | The mapped transcript has the transcript's length and order; each element copies `content` unchanged and carries the role of its entry |
| `Chat.BuildPayload` | controllers/chat.controller.js:74-80 | The payload has length transcript + 1; element i < transcript length keeps order and content and is `"user"` exactly for user entries (otherwise `"assistant"`); the last element is `{role: "user", content: message}` |
| `Chat.HistoryAppend` | controllers/chat.controller.js:75-78 | Mapping a concatenation of transcripts is the concatenation of the mappings |
| `Chat.PayloadGrowsByExchange` | controllers/chat.controller.js:74-80 | After a user turn and its reply, the next request is the previous request followed by the reply as `"assistant"` and the new user turn |
| `Chat.TwoTurnExample` | controllers/chat.controller.js:74-80 | A transcript of user "a" then bot "b", with new input "hi", yields user "a", assistant "b", user "hi" |
| `Chat.ChatWidget.constructor` | controllers/chat.controller.js:42-44 | Initial state: empty transcript, not loading, no error |
| `Chat.ChatWidget.BeginSend` | controllers/chat.controller.js:63-80 | Sets `isLoading`, clears `error`, leaves the transcript alone and returns the payload built from the given transcript and message |
| `Chat.ChatWidget.Receive` | controllers/chat.controller.js:84-101 | On a reply, exactly one bot entry with content `data.response \|\| data.message` is appended and `error` is untouched. On failure the transcript is unchanged and `error` is the fixed text. `isLoading` ends false on both paths |
| `Chat.ChatWidget.HandleSubmit` | controllers/chat.controller.js:104-119 | Blank input changes nothing and sends nothing. Otherwise exactly one user entry with the trimmed text is appended after the unchanged earlier entries, loading starts, the error is cleared, and the request is built from the transcript as before the submit |
| `Chat.ChatWidget.SubmitAndWait` | controllers/chat.controller.js:63-120 | A whole awaited turn: blank input is a no-op. Otherwise the transcript gains the user entry, plus the bot entry on success; on failure it gains only the user entry and `error` is set. `isLoading` ends false. The class invariant (user entries non-empty and trimmed; `error` only ever the fixed text) is kept |

## Left out

- The Next.js `POST` handler (controllers/chat.controller.js:4-24) only relays a JSON body to a fixed URL. It returns `{error: "Internal server error"}` on any exception. Nothing is transformed, so it is not modelled.
- The server that prepends a persona prompt to the history and calls the language-model provider is not part of this model. None of the modelled files contains it. The `error` messages and status codes of that server are not part of it either.
- `fetch`, `response.ok` and `response.json()` are not modelled. Their outcome is the `FetchResult` input.
- Error logging (`console.error`) is not modelled.
- Rendering, animation, scrolling and the placeholder list (controllers/chat.controller.js:45-61, 122-190) are UI. They are not modelled.
- `Date.now().toString()` ids and `new Date()` timestamps are not modelled. They are caller-supplied parameters.
- index.js and routes/chat.route.js are not modelled; they only set up Express, CORS and route registration. The route imports a default export that controllers/chat.controller.js does not have.
- `Chat.ReplyContent` assumes that `data.response` and `data.message` are each either absent or a string. Other JSON values, such as numbers or `null`, are not modelled.
- `JsString.IsWhitespace` lists the ECMAScript white-space and line-terminator code points as of current Unicode (category Zs). JavaScript strings are UTF-16 code units, but the model's characters are Unicode scalar values, so lone surrogates are not represented.
- Regular-expression semantics are not modelled. `CodeFormatter.ReplaceAll` gives `replace(/c/g, rep)` directly, for a single-character pattern.
- `Chat.ChatWidget.HandleSubmit` reads the transcript at the moment the method is called. React's closure sees the state of the last render, so this matches the source only if the widget re-renders between user events, as React does for distinct events. Replies are not matched to their requests: `Receive` appends whichever reply arrives, just as the source does for overlapping submits.
