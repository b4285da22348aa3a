# LinkedIn post generator: a Dafny model of the generation endpoint

The system is one serverless HTTP handler, `api/generate-post.js`. It turns a
short first-person story into a LinkedIn post by asking an external
text-generation service (Gemini). This project models its two pieces of
deterministic logic and proves properties about them:

- **Prompt assembly** (`createLinkedInPrompt`). The tone is looked up in a
  four-entry table, with `"professional and engaging"` as the fallback. The
  topic falls back to `'Professional experience'` and the result to
  `'Not specified'`. The four values are substituted into a fixed template.
  The template is a list of literal text and slots (`Prompt.Frame`). The
  literal text is the handler's own wording, held in `Prompt.PostWording`.
  The lemmas are stated for any wording, so they also hold for that one.
- **The request pipeline** (`handler`). With the I/O removed, it is a function
  from the HTTP verb, the request body, the configured API key and the
  service's behaviour to a `(status, body)` pair. The result also records the
  outbound request (the key and the prompt) exactly when the service is
  called. This shows that the early exits (OPTIONS, 405, 400, a body that
  cannot be destructured, a missing key) never reach the service.

JavaScript semantics that matter here are written out in `JsValues`:
- truthiness, used by `!content`, `!GEMINI_API_KEY` and `x || fallback`;
- string conversion, used by `${x}` in the template and by the key in
  `toneInstructions[tone]`.

Numbers are integers, and their string form is the decimal numeral. It is
proved to read back to the same number. This is JavaScript's string form for
integral Numbers of magnitude below 2^53. An object with its own `toString`
property cannot be converted: JavaScript throws a TypeError. The handler then
answers from its catch block and never calls the service.

Files:
- `optional.dfy`: `Option` and `Result`.
- `js_values.dfy`: request values, truthiness and ToString.
- `prompt.dfy`: template rendering, tone resolution and prompt assembly.
- `upstream.dfy`: the service reply and the shape checks applied to it.
- `handler.dfy`: the handler.

Purity of prompt assembly holds by construction: every operation is a Dafny
function, so equal inputs give equal prompts.

A first part without `text` gets 200 with `{ success: true }` and no `post`,
because JSON serialisation drops an undefined field.
`Handler.TextlessPartAnswersWithoutPost` states this behaviour.

## Model

| member | source | states |
|---|---|---|
| JsValues.ToString | api/generate-post.js:112-127 | The string form used for substitution and table lookup. It fails, with the TypeError message, exactly for an object with its own `toString`. A string is unchanged, an integer becomes a numeral that reads back as that integer, and a boolean becomes "true" exactly when it is true |
| JsValues.IntToStringRoundTrip | api/generate-post.js:124-127 | A number substituted into the prompt is written as a numeral that parses back to the same number |
| JsValues.DigitsOfParseDigits | api/generate-post.js:124-127 | Every canonical decimal numeral is the string form of its own value, so the numeral form is a bijection |
| Prompt.ResolveTone | api/generate-post.js:105-112 | A string naming one of the four keys resolves to that key's phrase. Every other convertible value (absent, unknown, non-string) resolves to "professional and engaging". The result is always one of the five phrases. It fails exactly when the key conversion throws |
| Prompt.ToneResolvesUniquely | api/generate-post.js:105-112 | A tone phrase from the table comes from exactly one request value, the string naming its key. The default comes from every other convertible value |
| Prompt.OrElse | api/generate-post.js:124-126 | Every falsy topic or result (absent, null, empty, 0, false) is replaced by the fallback text. Every truthy one is substituted as its string form: a non-empty string verbatim, a non-zero number as its numeral, `true` as "true", a plain object as "[object Object]". It fails exactly when conversion throws |
| Prompt.RenderAppend | api/generate-post.js:114-159 | Filling a template distributes over splitting the template into consecutive parts |
| Prompt.SlotVerbatim | api/generate-post.js:114-159 | A slot's value appears verbatim in the filled template, immediately after the text produced by the segments before it |
| Prompt.RenderUsesOnlySlots | api/generate-post.js:114-159 | The filled template depends on the filling only through the values of the slots it contains |
| Prompt.RenderFrame | api/generate-post.js:114-159 | The four-hole template fills to its literal texts interleaved with topic, story, result and tone, in that order |
| Prompt.FrameSlots | api/generate-post.js:114-159 | In the filled four-hole template, topic, story, result and tone each occur verbatim at their computed offsets, and the length is the wording plus the four values |
| Prompt.BuildPromptSlots | api/generate-post.js:104-160 | A prompt is built exactly when all four fields convert. It is the fixed wording interleaved with the topic (or 'Professional experience'), the content verbatim, the result (or 'Not specified') and the resolved tone phrase, and each value sits at its computed offset |
| Prompt.StoryDetermined | api/generate-post.js:125 | With the other fields fixed, two contents give the same built prompt only if their string forms are equal, so distinct story strings give distinct prompts |
| Upstream.Assess | api/generate-post.js:76-88 | A non-ok reply is an upstream failure. An ok reply without candidates, without a first candidate, or whose first candidate has no content is an invalid response. A first content without parts, or with an empty parts list, throws. Otherwise the verdict is the first part's text. A failed fetch or an unparsable body throws its own message |
| Handler.Respond | api/generate-post.js:76-100 | The upstream failure gives exactly 500 `{error:'Failed to generate post'}`, the invalid response gives exactly 500 `{error:'Invalid response from AI'}`, a thrown error gives exactly 500 `{error:'Internal server error', details}` with the thrown message, and success gives 200 with `success:true` and no field besides `post` and `success`. `post` appears only on success with a text, and `error` only on failure |
| Handler.Handle | api/generate-post.js:2-102 | OPTIONS gives 200 with no body. Any verb other than OPTIONS and POST gives 405 'Method not allowed'. An undefined or null body gives a 500 internal error. Falsy content gives 400 'Content is required', checked before the key. A missing or empty key gives 500 'Gemini API key not configured'. A field whose string conversion throws gives the 500 internal error. The service is called iff all these checks pass, with the key and the assembled prompt, and its reply decides the response. Statuses are within {200, 400, 405, 500}. A `post` is always the whole first text of the reply to that call |
| Handler.EarlyExitIgnoresUpstream | api/generate-post.js:12-35 | When the handler exits before calling the service, the response is the same whatever the service would have answered |
| Handler.OnlyFourFieldsRead | api/generate-post.js:22 | Two bodies that agree on topic, content, result and tone give the same outcome: no other body property is read |
| Handler.SingleCandidateSucceeds | api/generate-post.js:84-93 | A valid request (convertible fields) answered with a single candidate whose text is x gets exactly 200 `{post:x, success:true}` |
| Handler.TextlessPartAnswersWithoutPost | api/generate-post.js:84-93 | A first part that lacks `text` passes the shape check and yields 200 `{success:true}` with no post |
| Handler.PromptCarriesFields | api/generate-post.js:35-46 | The prompt sent to the service carries the content verbatim, the topic and result or their fallbacks, and the resolved tone, each at its place in the post wording |

## Left out

- CORS headers (api/generate-post.js:4-10): they are constant side effects on every response and involve no decision.
- The outbound HTTP request (api/generate-post.js:38-74): the URL, headers, JSON encoding, `generationConfig` and `safetySettings` are constants passed to the service. The service is a function parameter from the outbound key and prompt to a `Reply`.
- JSON parsing of the reply (api/generate-post.js:82): a parsed reply is the `Payload` datatype. A reply whose JSON is not an object, whose `candidates` is not an array, or whose elements or `text` are not of the expected kind is not modelled.
- Reading `process.env` (api/generate-post.js:28): the key is an `Option<string>` parameter.
- `console.error` logging (api/generate-post.js:78, 96): it has no effect on the response.
- Upstream.Assess: the model does not cover a failure while reading the error body of a non-ok reply (api/generate-post.js:77). The code would then reach the catch block. The model always answers 'Failed to generate post'.
- Prompt.ResolveTone: keys inherited from `Object.prototype` (for example `constructor`) are not modelled. They are truthy in JavaScript, so they would not fall back to the default phrase. The model's table has exactly the four keys.
- JsValues.ToString: numbers are integers only, converted exactly. JavaScript parses JSON numbers into doubles and prints the shortest digits that read back to the same double. So integers of magnitude 2^53 or more (for example 2^60, printed "1152921504606847000") are not modelled. Neither are NaN, fractions, -0 or exponent notation. Arrays as request values are not modelled. An object without its own `toString` converts as "[object Object]".
- JavaScript strings are sequences of UTF-16 code units; the model's strings are sequences of Unicode scalar values. A request string holding a lone surrogate (which JSON parsing accepts) cannot be represented. The offsets `TopicAt`, `StoryAt`, `ResultAt` and `ToneAt` count characters, not JavaScript string indices: a character outside the Basic Multilingual Plane counts 1 here and 2 in JavaScript.
- Thrown messages for reading through `undefined`, for destructuring an undefined or null body, and for converting an object with its own `toString` are the V8 engine's wording. The engine is not part of this model.
- Length profiles, `hashtags`, `mentions` and template variants: the code does not have them. The handler reads only topic, content, result and tone.
