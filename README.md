# Healthcare chat box: safety gate, rule-based advice, and the client's rendering

A model, in Dafny, of the deterministic core of a small healthcare chat box. Four modules cover it:

- **The serverless chat endpoint** (`frontend/api/chat.js`, module `ChatApi`):
  - the keyword safety gate `safetyCheck`;
  - the `responses` table of five advice templates;
  - the `else if` chain that picks a template or a canned reply from the lower-cased, trimmed message;
  - the disclaimer suffix added to templated advice;
  - the order in which the handler answers 200, 405, 400 or 500.
- **The Express safety middleware** (`backend/middleware/safetyMiddleware.js`, module `SafetyMiddleware`). It runs the same keyword test and has three outcomes: it throws (the message is absent, `null` or not a string, so `toLowerCase` fails before anything is written), it answers 400 and stops, or it calls `next()`.
- **The client's `formatBotResponse`** (`frontend/src/App.tsx`, module `ChatClient`). It turns an advice record into the text shown in the chat. Conversational replies are shown as plain paragraphs; all others as five titled sections, of which the three list sections (medicine categories, home remedies, red flags) are bulleted.
- **Two shared modules:**
  - `JsText` models the JavaScript string primitives the code relies on: `toLowerCase`, `trim`, `includes`, `some`, `join`.
  - `Messages` models the shared data: the five-field advice record (`BotResponse`), the request, the replies, and the response object with its `next` callback.

How each part is modelled:

- The handler is modelled twice:
  - `ChatApi.Handler` is a method that keeps the source's step-by-step shape (early `return`s, the reassigned `responseKey`). It writes into an `Exchange` object that stands for `res`.
  - `ChatApi.Respond` is the function that specifies it. It is built from `RouteOf`, which decides where a request goes, and from a first-match evaluation over an ordered rule table.
- The middleware follows the same pattern: `Apply` is the method and `Decide` its specification.
- `formatBotResponse` is a pure function, so it is modelled as one, with lemmas about the text it produces.

## Model

| member | source | states |
|---|---|---|
| JsText.Lower | frontend/api/chat.js:25 | `toLowerCase` keeps the length and maps each character on its own (ASCII letters only) |
| JsText.IncludesIff | frontend/api/chat.js:25 | `includes` holds exactly when the needle occurs at some index |
| JsText.IncludesAnyIff | frontend/api/chat.js:24-26 | `some(k => s.includes(k))` holds exactly when some listed needle is included |
| JsText.TrimSpec | frontend/api/chat.js:114 | `trim` keeps a slice of its input that neither starts nor ends with whitespace |
| JsText.TrimIncludesIff | frontend/api/chat.js:114 | trimming does not change whether a needle without blank ends is included |
| JsText.JoinPrefixed | frontend/src/App.tsx:58 | a bullet written once in front plus joining with newline-and-bullet equals bulleting every item and joining with newlines |
| Messages.Exchange.Send | frontend/api/chat.js:40 | `res.status(s).json(p)` appends one reply and leaves `next` alone |
| Messages.Exchange.Next | backend/middleware/safetyMiddleware.js:35 | `next()` is counted once and writes no reply |
| ChatApi.KeywordsAreLowercase | frontend/api/chat.js:6-25 | lower-casing any keyword leaves it unchanged, so only the message's case matters |
| ChatApi.SafetyCheckIff | frontend/api/chat.js:4-29 | the gate blocks exactly when some keyword is a substring of the lower-cased message |
| ChatApi.SafetyIgnoresCase | frontend/api/chat.js:24-26 | a message and its lower-cased form are judged alike |
| ChatApi.SafetyKeywordOrderIrrelevant | frontend/api/chat.js:6-26 | any list holding the same keywords blocks the same messages |
| ChatApi.BlockingMonotone | frontend/api/chat.js:24-26 | a message containing a blocked message is blocked |
| ChatApi.RedundantKeywords | frontend/api/chat.js:6-21 | "injection" and "doctor prescription" add nothing: the twelve other keywords block the same texts |
| ChatApi.EssentialKeywordsCover | frontend/api/chat.js:6-21 | every keyword contains one of the twelve, and the twelve are keywords |
| ChatApi.Responses | frontend/api/chat.js:63-108 | the table has exactly the keys fever, headache, cold, stomach, default |
| ChatApi.ResponsesWellFormed | frontend/api/chat.js:63-108 | every template has non-empty text fields and non-empty lists of non-empty items |
| ChatApi.Compose | frontend/api/chat.js:145-152 | the composed record equals the template except `next_steps`, which is the template's followed by the disclaimer |
| ChatApi.FirstMatchFrom | frontend/api/chat.js:111-143 | the result is `default` or the target of one of the rules examined |
| ChatApi.FirstMatchPicks | frontend/api/chat.js:117-143 | when rule i matches and no earlier rule does, rule i's target is chosen |
| ChatApi.FirstMatchNone | frontend/api/chat.js:111-143 | when no rule matches, the key stays `default` |
| ChatApi.FirstMatchFromExplained | frontend/api/chat.js:111-143 | every result comes from the first matching rule, or no rule matches and it is `default` |
| ChatApi.FirstMatchFromCongruent | frontend/api/chat.js:117-143 | two texts on which every rule agrees get the same result |
| ChatApi.FirstMatchChain | frontend/api/chat.js:117-143 | the six-branch `else if` chain equals first-match evaluation of the ordered rule table |
| ChatApi.Classify | frontend/api/chat.js:111-146 | every template key the classification can produce is a key of the table |
| ChatApi.MatchesIgnoresTrim | frontend/api/chat.js:114 | a rule whose triggers have no blank ends matches a text exactly when it matches the trimmed text |
| ChatApi.ClassifyIgnoresTrim | frontend/api/chat.js:114-143 | the `trim` before matching never changes the intent |
| ChatApi.RouteOf | frontend/api/chat.js:39-158 | which branch a request takes, each stated as an if-and-only-if: preflight, 405, missing message, blocked, thrown (null body or non-string message), classified |
| ChatApi.Respond | frontend/api/chat.js:32-160 | the status is 200, 400, 405 or 500, and 200, 400 and 500 are each sent exactly on their routes |
| ChatApi.BlockedReplyIff | frontend/api/chat.js:55-60 | the block reply is sent exactly when the gate blocks a present string message |
| ChatApi.Handler | frontend/api/chat.js:32-160 | the handler writes exactly one reply, the one `Respond` gives, and never calls `next` |
| ChatApi.AdviceForWellFormed | frontend/api/chat.js:127-152 | every advice record of a classification has all five fields filled |
| ChatApi.AdviceWellFormed | frontend/api/chat.js:127-152 | every advice record the handler sends has all five fields filled |
| ChatApi.DisclaimerOnlyOnTemplates | frontend/api/chat.js:127-152 | a reply ends with the disclaimer exactly when it comes from the table, not from the help or greeting branch |
| ChatApi.CannedRepliesShape | frontend/api/chat.js:127-143 | the help and greeting replies list "none needed" and "None at this moment" |
| ChatApi.BlankNotBlocked | frontend/api/chat.js:24-26 | a whitespace-only message passes the gate |
| ChatApi.BlankClassifiedDefault | frontend/api/chat.js:111-126 | a whitespace-only message is classified `default` |
| ChatApi.BlankMessageGetsDefault | frontend/api/chat.js:50-146 | a non-empty whitespace-only message is present, passes the gate and gets the `default` template |
| ChatApi.FeverBeforeHeadache | frontend/api/chat.js:117-120 | "fever, headache" is a fever message: the fever rule is tested first |
| ChatApi.FeverFirst | frontend/api/chat.js:117-118 | any text with a fever trigger is classified fever, whatever else it contains |
| ChatApi.DoseIsBlocked | frontend/api/chat.js:6-28 | "fever dose" is blocked although it names a symptom |
| ChatApi.ThisIsAGreeting | frontend/api/chat.js:135 | "this" passes the gate and gets the greeting, because "hi" matches inside a word |
| SafetyMiddleware.Decide | backend/middleware/safetyMiddleware.js:2-36 | it throws exactly when the message is absent or not a string; it rejects exactly when a string message contains a keyword; a rejection carries the block reply |
| SafetyMiddleware.Apply | backend/middleware/safetyMiddleware.js:2-36 | on rejection the block reply is written and `next` is not called; otherwise nothing is written, and `next` is called once unless it threw |
| SafetyMiddleware.SameKeywords | backend/middleware/safetyMiddleware.js:6-21 | the middleware's keyword list is the endpoint's list |
| SafetyMiddleware.BlocksIffSafetyCheck | backend/middleware/safetyMiddleware.js:24-26 | the middleware blocks exactly the messages the endpoint's gate blocks |
| SafetyMiddleware.SameBlockReply | backend/middleware/safetyMiddleware.js:29-32 | the middleware's 400 reply is the endpoint's block reply |
| SafetyMiddleware.AgreesWithHandler | backend/middleware/safetyMiddleware.js:24-33 | for a non-empty string message, the middleware rejects exactly when the endpoint would send the block reply |
| SafetyMiddleware.EmptyMessagePasses | backend/middleware/safetyMiddleware.js:3-35 | the empty message passes the middleware, while the endpoint answers it as missing |
| ChatClient.ConversationalLayout | frontend/src/App.tsx:45-50 | a conversational reply is shown as causes, a blank line, the remedies one per line, a blank line, the next steps |
| ChatClient.ConversationalHidesMedicineAndRedFlags | frontend/src/App.tsx:45-50 | the medicine categories and red flags of a conversational reply are not shown |
| ChatClient.CannedRepliesAreConversational | frontend/src/App.tsx:45-49 | the endpoint's help and greeting replies are shown as conversation |
| ChatClient.SectionedLayout | frontend/src/App.tsx:53-68 | a sectioned reply is shown as the four titled sections untouched, the last title, then the next steps with trailing whitespace cut |
| ChatClient.SectionTitlesInOrder | frontend/src/App.tsx:53-68 | a sectioned reply starts with "CAUSES:" and shows the other four titles after it, in order |
| ChatClient.SectionedIsTrimmed | frontend/src/App.tsx:53-68 | a sectioned reply neither starts nor ends with whitespace |
| ChatClient.BulletsLayout | frontend/src/App.tsx:58-64 | a list is shown with each item behind a bullet, one per line; an empty list shows a lone bullet |

## Left out

- CORS headers (frontend/api/chat.js:34-36): they set response headers and do not affect which reply is sent.
- The `bodyParser` configuration (frontend/api/chat.js:162-167): it decides how `req.body` is parsed; the model starts from the parsed body (`Request.body`).
- The AI fallback in frontend/src/utils/openai.js: it calls an external model over the network.
- The server bootstrap (backend/server.js) and the route wiring (backend/routes/chatRoutes.js): the controller the route calls is not part of this model, so the order in which the server chains the middleware and the controller is not modelled either.
- The React state, the message list, the UI, timestamps and `console` logging in App.tsx and chat.js: these are I/O and presentation.
- What Express does after the middleware throws (its default error handler): the model records only that it threw, wrote nothing and did not call `next`.
- `toLowerCase` maps only the ASCII letters A-Z. Unicode case mapping and UTF-16 code units are not modelled; strings are sequences of characters.
- JsText.Includes is the mathematical substring test. Its cost, and the engine's search algorithm, are not modelled.
- ChatApi.RedundantKeywords is stated for any text, the lower-cased message included. That the endpoint lower-cases before testing is a separate fact (`SafetyCheck`).
- The five advice templates are modelled as data. Their wording is not the subject of any lemma beyond well-formedness and the disclaimer.
- That the five table templates are shown in the sectioned form (their `causes` contain no conversational marker) is not proved: it is a fact about their wording only.
- Notes on what the code does:
  - The help and greeting replies are returned without the disclaimer (frontend/api/chat.js:127-143); `DisclaimerOnlyOnTemplates` states this.
  - Greeting triggers are plain substring tests, not anchored at the start of the message, so "this" is a greeting (`ThisIsAGreeting`).
  - There are no thanks, farewell or pain rules.
  - The 500 branch is reachable: a `null` body, or a truthy message that is not a string, throws inside the `try`.
  - The empty message passes the middleware and is answered 400 "Message is required" by the handler (`EmptyMessagePasses`).
