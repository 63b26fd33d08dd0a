# Image-prompt router, modelled in Dafny

A model of the request router in `weatherModule.js`, a Cloudflare-Worker
style script that turns a URL path into a text prompt and forwards it to one
of two image generators: the Workers AI inference binding
(`/workersai/<prompt>`) or the OpenAI image-generation API
(`/openai/<prompt>`). Any other path is answered by relaying a fixed landing
page.

The model covers the pure decision layer of the script:

- **Path splitting and dispatch** (`Paths`, `Router`): the pathname is split
  on `/` with JavaScript `split` semantics, the leading piece is dropped, and
  the next piece is compared exactly and case-sensitively with `workersai`
  and `openai`. The handler receives the pieces after that word.
- **Prompt derivation** (`Prompts`): every `+` of the first remaining piece
  becomes a space, nothing is percent-decoded, and the result is put after
  the phrase `An atmospheric scene showcasing the following: `.
- **Response decisions** (`Handlers`, `Router`): which outbound call, if any,
  a request makes, and which response it gets for each outcome of that call,
  including which `catch` produces it. A fault thrown outside the OpenAI
  handler's `try` is answered by the router's catch with a 500 stack trace;
  one inside it gets a 500 `Error: <message>` text.
- **End-to-end behaviour** (`Endpoints`): what a caller sees for each kind of
  pathname, stated from the pathname text alone.

The collaborators are inputs, not behaviour: the inference result
(`Http.Inference`), the image API's reply (`Http.Upstream`, whose `ok` is a
2xx status) and the landing-page fetch (`Http.Landing`). A request's result
is an `Http.Exchange`: the one outbound call it made, if any, and how it
settled.

The path-level lemmas take a `head`: the text before the first `/`. It is
empty for every pathname a URL produces, and the router ignores it.

Behaviour worth noting, all of it read off the code:

- `/openai` with no piece after it gets a 500 stack trace from the router's
  catch, not a 400: `pathParts[0].replace` runs before the `try`
  (weatherModule.js:65) and throws on the missing piece.
- `/workersai/` sends the bare scene phrase: that handler has no guard
  against an empty prompt (weatherModule.js:41-44).
- Percent escapes are never decoded, so `%20` stays three characters
  (weatherModule.js:41, :65).
- A non-ok reply's text is prefixed with `OpenAI API error: `
  (weatherModule.js:88). A 304 reply cannot be relayed that way: the
  `Response` constructor rejects a text body with a null body status, and
  the handler's own catch answers 500 `Error: <message>` (weatherModule.js:88, :95-96).

## Model

| member | source | states |
|---|---|---|
| `Paths.Split` | weatherModule.js:15 | the pieces of a string cut at every separator; there is always at least one piece, and no piece contains the separator |
| `Paths.SplitCount` | weatherModule.js:15 | a string with k separators splits into exactly k + 1 pieces, empty pieces included |
| `Paths.JoinSplit` | weatherModule.js:15 | joining the pieces back with the separator gives the original pathname, so splitting loses nothing |
| `Paths.SplitJoin` | weatherModule.js:15 | any non-empty list of separator-free pieces is exactly what splitting their join gives back |
| `Paths.SplitAfterPiece` | weatherModule.js:15 | a separator-free prefix followed by a separator becomes the first piece, and the rest splits on its own |
| `Paths.FirstPiece` | weatherModule.js:15 | the first piece is a word exactly when the string is that word or starts with the word and a separator; the remaining pieces are then none or the pieces after that separator |
| `Prompts.ReplacePlus` | weatherModule.js:41 | the derived prompt has the piece's length, contains no `+`, has a space wherever the piece had `+` and the piece's own character everywhere else |
| `Prompts.PlusAsSpaceUnique` | weatherModule.js:41 | the derived prompt is the only string with that position-by-position relation to the piece |
| `Prompts.ReplacePlusIdentity` | weatherModule.js:41 | a piece is passed through unchanged if and only if it contains no `+` |
| `Prompts.ReplacePlusIdempotent` | weatherModule.js:65 | deriving the prompt a second time changes nothing |
| `Prompts.ReplacePlusEmpty` | weatherModule.js:65-68 | the derived prompt is empty exactly when the piece is empty, so the `!prompt` guard sees the raw piece's emptiness; a piece of only `+` becomes all spaces |
| `Prompts.NoPercentDecoding` | weatherModule.js:65 | every `%` of the piece is still a `%` at the same place in the prompt |
| `Prompts.PercentExample` | weatherModule.js:41 | `a%20b+c` becomes `a%20b c` |
| `Prompts.BackendPrompt` | weatherModule.js:80 | the text a backend receives starts with the scene phrase, followed by the piece with `+` read as a space |
| `Prompts.BackendPromptUnique` | weatherModule.js:44 | exactly one text meets that description for each piece |
| `Http.CatchAsCrash` | weatherModule.js:3-5 | the catch turns a thrown fault into a 500 whose body is that fault's stack trace, and passes a response through unchanged |
| `Handlers.HandleWorkersAI` | weatherModule.js:40-57 | a call is made exactly when a piece is present, with the fixed model and the scene phrase plus derived prompt; the model's bytes come back unchanged as a PNG; the handler throws exactly when the piece is missing or the model fails |
| `Handlers.AnswerUpstream` | weatherModule.js:86-97 | a non-ok reply keeps its status behind `OpenAI API error: `, except a null body status (304), whose rejected construction gives 500 `Error: <message>`; no text response carries a null body status; an ok reply redirects exactly when its first image URL can be read; an unreachable API or unreadable body gives 500 `Error: <message>`; never a stack trace |
| `Handlers.HandleOpenAI` | weatherModule.js:64-98 | the handler throws exactly when the piece is missing; it posts exactly when the piece is non-empty, with the fixed model, count and size and the scene phrase plus derived prompt; an empty piece gets 400 `Prompt is required` |
| `Handlers.OpenAINeverCrashesWithPrompt` | weatherModule.js:67-97 | once a piece is present, nothing the OpenAI handler does produces a stack-trace response |
| `Handlers.NotModifiedReplyRejected` | weatherModule.js:86-96 | a 304 reply is answered 500 `Error: <message>` by the local catch, and 304 is the only non-ok null body status |
| `Handlers.EmptyPromptIgnoresUpstream` | weatherModule.js:68-70 | with an empty piece the upstream outcome makes no difference and the status is 400 |
| `Handlers.PlusOnlyPromptIsSent` | weatherModule.js:65-70 | a piece made only of `+` passes the guard, and the prompt carries a space for each of them |
| `Router.Dispatch` | weatherModule.js:15-31 | a handler route is only chosen for a pathname containing `/`, and the pieces it hands on contain no `/` |
| `Router.HandleRequest` | weatherModule.js:13-33 | only a failing landing fetch escapes the router as a throw; an unrecognised path makes exactly one call, the landing-page fetch |
| `Router.Serve` | weatherModule.js:1-7 | the entry point always answers, and answers with a stack trace exactly when the router threw or itself answered with one |
| `Router.DispatchByRest` | weatherModule.js:15-30 | the route is read off the text after the first `/`: exactly `workersai` or `openai`, alone or followed by `/` and the pieces handed on; anything else lands |
| `Router.DispatchWithoutSlash` | weatherModule.js:15-32 | a pathname with no `/` reaches no handler |
| `Router.WorkersAIWord` | weatherModule.js:18-19 | `/workersai` hands on no pieces; `/workersai/` hands on one empty piece |
| `Router.OpenAIWord` | weatherModule.js:25-26 | `/openai` hands on no pieces; `/openai/` hands on one empty piece |
| `Router.LandingWords` | weatherModule.js:18-32 | `/`, `/foo` and the case variant `/OpenAI` go to the landing page |
| `Router.CaseVariantLands` | weatherModule.js:18-32 | `/WorkersAI/x`, differing from the handler word only in case, goes to the landing page |
| `Router.LongerWordLands` | weatherModule.js:25-32 | `/openai.png`, which only starts with the handler word, goes to the landing page |
| `Router.DispatchWorkersAI` | weatherModule.js:18-19 | `/workersai/` followed by any text hands the workers handler the pieces of that text |
| `Router.DispatchOpenAI` | weatherModule.js:25-26 | `/openai/` followed by any text hands the OpenAI handler the pieces of that text |
| `Router.HandlerPieceCount` | weatherModule.js:15-26 | a handler receives one piece fewer than the pathname has `/` characters |
| `Endpoints.MissingPieceCrashes` | weatherModule.js:20-28 | `/workersai` and `/openai` make no call and are answered with the router catch's 500 stack trace, not with `Error: ` text |
| `Endpoints.EmptyOpenAIPromptRefused` | weatherModule.js:68-70 | `/openai/` makes no call and gets 400 `Prompt is required` |
| `Endpoints.EmptyWorkersPromptSent` | weatherModule.js:41-50 | `/workersai/` still asks the model, with the bare scene phrase, and returns its image |
| `Endpoints.WorkersAIEndpoint` | weatherModule.js:40-56 | `/workersai/<piece>` asks the fixed model for the scene phrase plus derived prompt; its bytes come back as a PNG; its failure comes back as a 500 stack trace |
| `Endpoints.OpenAIEndpoint` | weatherModule.js:64-97 | `/openai/<piece>` with a non-empty piece posts the fixed model, count and size with the scene phrase plus derived prompt, and answers with the `try` block's decision on the upstream outcome |
| `Endpoints.OpenAILaterPiecesIgnored` | weatherModule.js:65 | `/openai/<piece>/<more>` behaves exactly like `/openai/<piece>` |
| `Endpoints.WorkersAILaterPiecesIgnored` | weatherModule.js:41 | `/workersai/<piece>/<more>` behaves exactly like `/workersai/<piece>` |
| `Endpoints.PlusOnlyPieceSent` | weatherModule.js:65-70 | `/openai/+++` is sent to the API and never answered with the `Prompt is required` refusal |
| `Endpoints.LandingEndpoint` | weatherModule.js:32 | every unrecognised path fetches the landing page and relays it, or answers its failure with a 500 stack trace |
| `Endpoints.CrashSources` | weatherModule.js:1-33 | a stack-trace response happens exactly for a missing piece after either word, a failing model, or a failing landing fetch |
| `Endpoints.ResponseStatuses` | weatherModule.js:52-94 | every status is 200, 302, 400 or 500, or the non-ok, non-null-body status of the upstream reply, or the landing page's own status; no text response has a null body status |
| `Endpoints.RedirectScenario` | weatherModule.js:91-94 | `/openai/sunset+over+hills` with an ok reply naming `https://img/x.png` is a redirect there |
| `Endpoints.NotModifiedScenario` | weatherModule.js:86-96 | `/openai/<piece>` answered 304 gets 500 `Error: <message>`, not a relayed 304 |
| `Endpoints.RateLimitScenario` | weatherModule.js:86-89 | `/openai/<piece>` answered 429 `rate limited` gives 429 `OpenAI API error: rate limited` |
| `Endpoints.ImageScenario` | weatherModule.js:47-56 | `/workersai/forest+glade` returns the model's bytes unchanged as a PNG |
| `Endpoints.ForestGladePrompt` | weatherModule.js:41 | the piece `forest+glade` becomes the prompt `forest glade` |

## Left out

- URL parsing (`new URL(request.url)`, line 14): the model starts from the pathname string. Request method and headers play no part in the code.
- The network and the inference binding (`env.AI.run`, the OpenAI `fetch`, the landing-page `fetch`): their results are inputs (`Inference`, `Upstream`, `Landing`), not behaviour.
- JSON: building the request body and parsing the reply. A reply whose first image URL cannot be read (bad JSON, no `data`, an empty `data`) is `Unreadable(message)`.
- Reading the error body with `text()` failing: the model takes the text as given.
- The credential header (line 76): it holds a CI-template placeholder, not logic.
- Async and promise plumbing beyond which catch answers a fault. The three identical stack-trace catches (weatherModule.js:3-5, :20-22, :27-29) are all modelled by `CatchAsCrash`.
- Stack-trace text: a `Crash` response carries the fault it reports, not the text.
- Validation of the redirect URL inside `Response.redirect`. A URL that fails it would throw inside the `try` and be answered 500 `Error: ...`.
- Statuses outside 200-599: reply statuses are typed 200-599, the range a fetched response's status takes here. Within it, `new Response` refuses only a text body with a null body status (204, 205, 304), and that refusal is modelled (`Http.IsNullBodyStatus`). The landing page is relayed as fetched and never rebuilt, so its status needs no such check.
- Handlers.AnswerUpstream: the text of the runtime's `TypeError` for a null body status is not modelled; the constant `NullBodyRejection` stands in for it.
- The default `content-type` of text responses. Only the PNG content type of the image response is modelled, through the `Image` response.
