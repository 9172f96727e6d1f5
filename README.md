# amoghsayssorry.com: a Dafny model of the apology server's request logic

The apology server is a small Express application. `POST /api/send` accepts a
JSON body naming a sender and a recipient, normalises it and saves one
document to a MongoDB collection. `GET /api/all` and `GET /api/:id` return
stored documents to an administrator who presents a shared secret. Two
service modules sit beside the server. `generateApology` builds an
instruction prompt for a chat-completion provider and lower-cases its reply.
`sendApologyEmail` turns a text into an html email and hands it to an
email-delivery provider.

This project models the logic of those three files that is not framework or
SDK code. It has five modules:

- `Wrappers` (`wrappers.dfy`): `Option` and `Result`.
- `JsString` (`js_string.dfy`): JavaScript values that may be `undefined` or
  `null`, truthiness, template interpolation, `trim` and `toLowerCase`.
  `Trim` is proved against an independent definition, `IsTrimOf`: whitespace,
  then the result, then whitespace. `TrimIsUnique` proves that only one string
  meets that definition.
- `GenerateApology` (`generate_apology.dfy`): the model name, the prompt
  template, the `trim().toLowerCase()` post-processing and how the provider's
  reply becomes a resolved value or an error.
- `SendEmail` (`send_email.dfy`): the line-feed-to-`<br>` conversion, the html
  wrapper, the fixed subject and the `{ data, error }` outcome mapping.
- `Server` (`server.js`'s logic, in `server.dfy`): `adminAuth`, the
  validation and normalisation of a send body, and a class `ApologyStore`. It
  holds the stored records as a sequence, with methods for the three `/api`
  routes.

External effects are parameters. Each provider's answer is passed in as a
value. Whether a database save or query succeeds is a boolean. The creation
time is an integer supplied by the caller. Document ids come from a counter
kept in the store.

What the server does not do:

- `/api/send` does not validate the trimmed values. It only checks that
  `senderName` and `recipientEmail` are truthy *before* trimming.
  `Server.BlankSenderPassesValidation` shows a blank name passing that check
  and the document being built with `senderName` `""`. The schema's
  `required` rule then fails the save, so the answer is 500 rather than 400.
- `/api/send` never reads the store and never calls either service.
  `Server.RepeatedSendScenario` shows two identical sends both being saved.

What `generateApology` does not do:

- A reply whose content is the empty string gives `""`, not an error.

## Model

| member | source | states |
|---|---|---|
| `JsString.Truthy` | server.js:46-47 | a value is truthy iff it is none of `undefined`, `null` and `""`; the same test decides the token choice and result in `adminAuth`, the 400 check and the `tone`/`message` defaults (server.js:60, 67-68) and the context placeholder in `generateApology` |
| `JsString.IsSpace` | server.js:65-68 | a character `trim` removes is never an upper-case ASCII letter, so lower-casing leaves it whitespace |
| `JsString.IsSpaceListed` | server.js:65-68 | `trim` removes exactly 25 characters: TAB, LF, VT, FF, CR, SPACE, U+00A0, U+1680, U+2000 to U+200A, U+2028, U+2029, U+202F, U+205F, U+3000 and U+FEFF |
| `JsString.Interpolate` | services/generateApology.js:11 | `${v}` gives the string itself for a string, "undefined" for `undefined` and "null" for `null` |
| `JsString.TrimStart` | server.js:65 | the result is the longest suffix of the input that does not start with whitespace; everything dropped is whitespace |
| `JsString.TrimEnd` | server.js:65 | the result is the longest prefix of the input that does not end with whitespace; everything dropped is whitespace |
| `JsString.Trim` | server.js:65-68 | the result has no whitespace at either end, and the input is whitespace, then the result, then whitespace (`IsTrimOf`) |
| `JsString.TrimParts` | server.js:65 | trimming the end after trimming the start leaves a trim of the original string, at the offset where the start was cut |
| `JsString.TrimStartAt` | server.js:65 | if the first non-whitespace character is at `a`, trimStart returns `s[a..]` |
| `JsString.TrimEndAt` | server.js:65 | if the last non-whitespace character is at `b - 1`, trimEnd returns `s[..b]` |
| `JsString.TrimIsUnique` | server.js:65-68 | every string that `IsTrimOf` accepts for `s` equals `Trim(s)`: the trim is unique |
| `JsString.TrimIdempotent` | services/generateApology.js:36 | trimming twice is the same as trimming once |
| `JsString.LowerChar` | services/generateApology.js:36 | an ASCII capital becomes its lower-case letter (code + 32); every other character is unchanged; the result is never a capital |
| `JsString.ToLower` | services/generateApology.js:36 | same length, contains no capital letter, and each character is lowered independently |
| `JsString.ToLowerOfLower` | services/generateApology.js:36 | a string with no capital letters is its own lower case |
| `JsString.LowerCharKeepsSpace` | services/generateApology.js:36 | lower-casing neither creates nor removes whitespace |
| `JsString.ToLowerSlice` | services/generateApology.js:36 | lower-casing commutes with taking a slice |
| `JsString.ToLowerAllSpace` | services/generateApology.js:36 | a whitespace-only string stays whitespace-only when lower-cased |
| `JsString.ToLowerKeepsTrim` | services/generateApology.js:36 | lower-casing a string and its trim keeps the trim at the same offset |
| `JsString.TrimToLowerCommute` | services/generateApology.js:36 | `trim(lower(s)) == lower(trim(s))` for every `s` |
| `GenerateApology.ModelName` | services/generateApology.js:31 | the model is a truthy `OPENAI_MODEL`, otherwise "gpt-4o-mini"; it is never empty |
| `GenerateApology.ContextText` | services/generateApology.js:14 | the context is a truthy `userMessage` verbatim, otherwise the fixed placeholder; it is never empty |
| `GenerateApology.Layout` | services/generateApology.js:8-28 | where each of the prompt's six parts sits in the concatenation |
| `GenerateApology.Prompt` | services/generateApology.js:8-28 | the prompt opens with the fixed introduction; the `tone:` line carries the interpolated tone verbatim, followed by the context heading; the context text fills the rest of the prompt up to the fixed rules block, which ends it |
| `GenerateApology.LineOf` | services/generateApology.js:11 | the result is the longest prefix of the input that contains no line feed; if it stops early, a line feed follows it |
| `GenerateApology.LineOfStopsAtNewline` | services/generateApology.js:11 | a line read from `x + "\n" + y` is `x` when `x` has no line feed |
| `GenerateApology.ParseTone` | services/generateApology.js:11 | a prompt is read only if it starts with the introduction and "tone: "; the tone read back contains no line feed |
| `GenerateApology.ParseLine` | services/generateApology.js:11 | reading the tone line after the fixed prefix returns the tone text |
| `GenerateApology.ParseToneRoundTrip` | services/generateApology.js:11 | a tone without line feeds can be read back from the prompt it was embedded in |
| `GenerateApology.Regroup` | services/generateApology.js:11-13 | the tone is followed by a line feed and then the rest of the prompt |
| `GenerateApology.PromptContextInjective` | services/generateApology.js:13-14 | for a fixed tone, two prompts are equal exactly when their context texts are equal |
| `GenerateApology.FalsyMessageUsesPlaceholder` | services/generateApology.js:14 | a falsy user message gives the same prompt as the placeholder text itself |
| `GenerateApology.BuildRequest` | services/generateApology.js:30-33 | one "user" message carrying the prompt, sent to a non-empty model: `OPENAI_MODEL` when truthy, else the default |
| `GenerateApology.PostProcess` | services/generateApology.js:36 | the result has no edge whitespace, contains no capital letters, is no longer than the reply (under the ASCII case mapping), and is the trim of the lower-cased reply |
| `GenerateApology.PostProcessFixedPoint` | services/generateApology.js:36 | the processed text is its own trim and its own lower case |
| `GenerateApology.PostProcessIdempotent` | services/generateApology.js:36 | post-processing twice is the same as post-processing once |
| `GenerateApology.Reply` | services/generateApology.js:30-36 | succeeds exactly when the provider returned a first choice whose content is a string; the text is then the trim of that content lower-cased, is lower case and trimmed, and is fixed by post-processing; a provider failure is passed on with its message, and only a provider failure is; an empty `choices` list is the local TypeError `NoChoice` and a first choice whose content is not a string is the local TypeError `NoContent` |
| `SendEmail.CountLF` | services/sendEmail.js:10 | the line-feed count is at most the length, and zero exactly when there is no line feed |
| `SendEmail.Piece` | services/sendEmail.js:10 | the replacement of one character contains no line feed |
| `SendEmail.BreakLines` | services/sendEmail.js:10 | the converted text contains no line feed and has length input length + 3 × number of line feeds |
| `SendEmail.CountLFAppend` | services/sendEmail.js:10 | line-feed counts add over concatenation |
| `SendEmail.BreakLinesAppend` | services/sendEmail.js:10 | the global replace works piece by piece over concatenation |
| `SendEmail.BreakLinesAt` | services/sendEmail.js:10 | input character `i` lands at offset `i + 3 × (line feeds before it)`: a line feed as exactly one `<br>`, any other character, CR included, unchanged |
| `SendEmail.PieceAt` | services/sendEmail.js:10 | the middle part of a three-part concatenation sits right after the first part |
| `SendEmail.BreakLinesWithoutLF` | services/sendEmail.js:10 | text with no line feed is returned unchanged |
| `SendEmail.CrLfKeepsCr` | services/sendEmail.js:10 | "\r\n" becomes "\r<br>" |
| `SendEmail.WrapperHasNoLF` | services/sendEmail.js:10 | the `<div …>` opening and closing tags contain no line feed |
| `SendEmail.Wrapped` | services/sendEmail.js:10 | the three parts of a wrapped body sit where expected, and the whole has no line feed iff no part has one |
| `SendEmail.RenderHtml` | services/sendEmail.js:10 | the body is exactly the fixed `<div style=…>` opening, then the converted text, then `</div>`; it has no line feed; its length is the input length + 3 × line feeds + the wrapper's length |
| `SendEmail.ComposeEmail` | services/sendEmail.js:6-11 | sender and recipient are passed through, the subject is always "i owe you an apology", and the html is the rendered body |
| `SendEmail.Deliver` | services/sendEmail.js:13-17 | the outcome fails exactly when the provider reported an error, carrying that error's message; otherwise it is the provider's `data` |
| `Server.SelectToken` | server.js:46 | the token is empty iff both header and query are falsy; a truthy header is taken as is, and otherwise a non-empty token is the query's |
| `Server.AdminAuth` | server.js:45-48 | access iff the secret is truthy and equals the header token when that is truthy, else the query token |
| `Server.NoSecretNoAccess` | server.js:47 | with `ADMIN_TOKEN` unset or empty, no request is authorised |
| `Server.HeaderShadowsQuery` | server.js:46 | when the header token is truthy the query token does not affect the outcome |
| `Server.Fields` | server.js:58 | a missing body reads as one with every field undefined |
| `Server.TrimOr` | server.js:67-68 | a truthy field becomes its trim, with no edge whitespace; a falsy one becomes the fallback |
| `Server.Normalize` | server.js:58-69 | rejects (400) iff `senderName` or `recipientEmail` is falsy before trimming; otherwise both names are their trims, a truthy tone and message are trimmed, a falsy tone becomes "sincere" and a falsy message "", and no stored field has edge whitespace |
| `Server.TrimAllSpace` | server.js:65-68 | a whitespace-only string trims to "" |
| `Server.WhitespaceToneStoredEmpty` | server.js:67 | a non-empty whitespace-only tone is truthy, so it is stored as "", not "sincere" |
| `Server.BlankSenderPassesValidation` | server.js:60-66 | a whitespace-only `senderName` passes the route's required-field check, the document is built with `senderName` "", and that document breaks the schema's `required` rule (`MeetsSchema` is false) |
| `Server.ResubmitStable` | server.js:64-69 | sending a stored draft again with all four fields gives back the same draft |
| `Server.NormalizeAllTruthy` | server.js:64-69 | with all four fields truthy, each stored field is the trim of its input |
| `Server.TrimOfTrimmed` | server.js:65-68 | a string without edge whitespace is its own trim |
| `Server.MeetsSchema` | server.js:35-36 | a document passes the schema's `required` check iff `senderName` and `recipientEmail` are both non-empty (truthy) strings |
| `Server.Record` | server.js:34-42 | a stored document carries the id, the creation time and the four normalised fields |
| `Server.FindById` | server.js:102 | a record that is found is in the store and has the id; nothing is found iff no stored record has the id |
| `Server.SendStatus` | server.js:56-78 | a rejected body is 400, a save is 200 and a failed save is 500 |
| `Server.AdminStatus` | server.js:81-109 | unauthorised is 401, unknown id is 404, a failed query is 500 and a result is 200 |
| `Server.ApologyStore.constructor` | server.js:42 | the model starts from an empty, valid store (its choice; the real collection persists across runs, and the route contracts need only `Valid()`, so any valid starting state works) |
| `Server.ApologyStore.Send` | server.js:56-78 | a 400 leaves the store unchanged; a save that breaks the schema's `required` rule or whose write fails is 500 and stores nothing; a success is reported iff the body passes the route check, the built document meets the schema and the write succeeds, and it appends exactly one record with a fresh id and the normalised fields; ids stay distinct and every stored record has non-empty `senderName` and `recipientEmail` |
| `Server.AppendFresh` | server.js:71 | appending a document that takes the next id and has non-empty required fields keeps ids distinct and below the supply and every stored record's required fields non-empty; that id was unused |
| `Server.ApologyStore.ListAll` | server.js:81-93 | 401 iff not authorised, whatever the store holds; 500 iff authorised and the query fails; otherwise all stored records |
| `Server.ApologyStore.GetById` | server.js:96-109 | 401 iff not authorised, whatever the store holds; 500 iff authorised and the query fails; 404 iff authorised, the query succeeds and no record has the id; a returned record is stored under that id |

## Left out

- Express setup, CORS, body parsing, static files, the `index.html` fallback, `/health` and `listen` (server.js:9-16, 53, 111-120). These are framework plumbing.
- The MongoDB connection and the exit on failure (server.js:19-31). This is library behaviour.
- The schema's defaults and type casting (server.js:34-40). They are library behaviour. Of the schema, only `required` on `senderName` and `recipientEmail` is modelled (`MeetsSchema`): an empty string fails it and the save is refused. Other database write failures are the parameter `saveSucceeds`.
- ObjectId generation and casting. Ids are natural numbers from a counter. A malformed id in `/api/:id` makes Mongoose throw a cast error, which is a 500; here that is a failed query (`fetchSucceeds == false`).
- Server.ApologyStore.ListAll: does not model the database's `sort({ createdAt: -1 })`. It only promises the same records as the store holds (equal as multisets).
- `String(x)` on non-string JSON values (numbers, booleans, arrays, objects) and array-valued query parameters. Every field is modelled as `undefined`, `null` or a string.
- `sendApologyEmail`'s `html` is taken to be a string. A non-string would throw a `TypeError` at `html.replace` (services/sendEmail.js:10) before the provider is called.
- The OpenAI and Resend clients and their network calls. Their answers are parameters. `temperature: 0.8` is not modelled because it is only passed to the provider.
- JsString.ToLower: maps only the ASCII letters A–Z, not JavaScript's full Unicode case mapping.
- GenerateApology.PostProcess: its bound `|r| <= |raw|` holds only under the ASCII case mapping. JavaScript lower-cases U+0130 into two code units, so the real text can be longer than the reply.
- JavaScript strings are UTF-16. Here they are sequences of Unicode scalar values. Every whitespace character lies in the Basic Multilingual Plane, so `trim` is unaffected.
- Logging, `async` interleaving and concurrency between requests. Each request is modelled as one sequential step on the store.
