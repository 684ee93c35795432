# NamerAI naming assistant — a Dafny model

NamerAI is a single-page naming assistant. The user describes a project, gives
a reference name, or supplies a logo. The page asks a hosted Gemini model for
six candidate names, each with a tagline and a rationale. This project models
the deterministic logic around that one remote call:

- **Generation service** (`gemini_service.dfy`, module `GeminiService`).
  `generateProgramNames` maps a tagged input, a tone and a language to one
  request: the model identifier, a system instruction, the user contents (a
  plain prompt, or two multimodal parts for an image) and the fixed output
  configuration. `generateRelatedNames` builds the "more like this" request.
  Both reduce the endpoint's answer to three outcomes: the parsed list, `[]`
  when the reply has no text, or one fixed failure. The endpoint and
  `JSON.parse` are function parameters.
- **Page controller** (`app.dfy`, module `App`). `handleGenerate` and
  `handleMoreLikeThis` become the class `AppState` over `results`,
  `isLoading`, `error` and `lastContext`. Each handler is split at its
  `await` into `Begin…` and `Settle`. The context and tone fallbacks of "more
  like this" are pure functions.
- **Input form** (`input_form.dfy`, module `InputForm`). The class `FormState`
  holds the form fields and their handlers (URL change, file choice, the
  reader callback, Remove, README load). Pure functions give the payload
  `handleSubmit` builds and the submit button's disabled test. The method
  `CopyToBytes` is the README byte-copy loop.
- **Support**: `types.dfy` (`Language`, `Tone`, `InputMode`, `GeneratedName`),
  `js_string.dfy` (JavaScript `trim`, `split(',')`, truthiness, and a
  substring predicate used to state what a prompt mentions), `wrappers.dfy`
  (`Option`, standing for `undefined`/`null`).

Three facts about the program shape the model:

- The service never validates its input. Blank input is rejected only by the
  form, which then sends nothing.
- The reply is only cast to `GeneratedName[]` and is never checked against the
  response schema. `ParseOutcome` carries the parsed list unchanged; the
  model assumes each element has the three string fields. A failed parse is
  a `ParseFailed` and becomes the fixed failure.
- An image's data is whatever `split(',')[1]` yields. This may be `undefined`,
  so `GenerationInput.Image` carries an `Option<string>`.

## Model

| member | source | states |
|---|---|---|
| `Types.ToneName` | types.ts:3 | each tone is spelled as a non-empty literal |
| `Types.ToneNameInjective` | types.ts:3 | different tones have different spellings, so `Tone: <tone>` identifies the tone |
| `GeminiService.PromptLanguage` | services/geminiService.ts:42 | the prompt language is `Turkish` exactly when the language is `tr`, and `English` for every other language (also line 144) |
| `GeminiService.TextInstruction` | services/geminiService.ts:48-56 | the description instruction carries the rule that tagline and description are in the output language, while the name may be English or abstract if suitable |
| `GeminiService.SimilarInstruction` | services/geminiService.ts:60-69 | the reference-name instruction asks for new names similar in style to the quoted name, and carries the output-language rule |
| `GeminiService.ImageInstruction` | services/geminiService.ts:73-82 | the image instruction asks the model to analyze the provided image's shapes, colors and mood, and carries the output-language rule |
| `GeminiService.RelatedInstruction` | services/geminiService.ts:146-155 | the "more like this" instruction asks for new names similar in style to the quoted liked name |
| `GeminiService.EffectiveMimeType` | services/geminiService.ts:88 | the fallback to `image/png`: a present, non-empty MIME type is kept; an absent or empty one becomes `image/png`; the result is never empty |
| `GeminiService.BuildProgramRequest` | services/geminiService.ts:47-117 | every input kind is sent to `gemini-2.5-flash` with JSON output, the three-field schema and temperature 0.8 |
| `GeminiService.BuildRelatedRequest` | services/geminiService.ts:144-168 | related names go to the same model, with JSON output, the same schema and temperature 0.85 |
| `GeminiService.ProgramInstructionMentions` | services/geminiService.ts:48-82 | for every input kind the instruction contains `Tone: <tone>`, `Output Language: <prompt language>` and `generate 6 ` |
| `GeminiService.TextPayload` | services/geminiService.ts:57 | a description is sent as a plain prompt: `Project Description: ` followed by the description, unchanged |
| `GeminiService.SimilarPayload` | services/geminiService.ts:59-70 | the reference name appears quoted in the instruction; the prompt is `Generate 6 names similar in vibe to "<name>".` |
| `GeminiService.ImagePayload` | services/geminiService.ts:84-96 | an image is sent as exactly two parts: inline data holding the content unchanged with the effective (non-empty) MIME type, then a text part containing `Tone: <tone>` |
| `GeminiService.RelatedRequestMentions` | services/geminiService.ts:146-157 | the related instruction contains the quoted liked name, `Project Context: <description>`, the tone line, the language line and `generate 6 `; the prompt quotes the liked name and ends with the description verbatim |
| `GeminiService.HandleReply` | services/geminiService.ts:120-129 | non-empty reply text yields its parse unchanged; empty or absent text yields `[]`, not an error; a thrown call or a failed parse yields the single fixed failure and never a list |
| `GeminiService.GenerateProgramNames` | services/geminiService.ts:99-129 | any failure of `generateProgramNames` carries exactly `Failed to generate names` |
| `GeminiService.GenerateRelatedNames` | services/geminiService.ts:159-180 | any failure of `generateRelatedNames` carries exactly `Failed to generate related names` |
| `JsString.TrimStart` | components/InputForm.tsx:143 | the result is a suffix of the input; everything removed is whitespace; the result does not start with whitespace |
| `JsString.TrimEnd` | components/InputForm.tsx:143 | the result is a prefix of the input; everything removed is whitespace; the result does not end with whitespace |
| `JsString.Trim` | components/InputForm.tsx:143 | `s.trim()` is the contiguous part of `s` between a whitespace-only head and a whitespace-only tail, and neither starts nor ends with whitespace |
| `JsString.TrimEmptyIffAllWhitespace` | components/InputForm.tsx:143 | `s.trim()` is empty exactly when every character of `s` is JavaScript whitespace |
| `JsString.Split` | components/InputForm.tsx:173 | `split` with a one-character separator gives at least one piece, and no piece contains the separator |
| `JsString.JoinSplit` | components/InputForm.tsx:173 | splitting loses nothing: joining the pieces with the separator gives back the input |
| `JsString.SplitHasSecondPieceIffSeparator` | components/InputForm.tsx:173 | there is a second piece exactly when the separator occurs |
| `InputForm.DataPart` | components/InputForm.tsx:173 | `split(',')[1]` contains no comma when present |
| `InputForm.DataPartOfDataUrl` | components/InputForm.tsx:173 | for a data URL `<header>,<data>` (RFC 2397, section 3) with no comma in header or data, the part sent is exactly the data |
| `InputForm.DataPartAbsentIffNoComma` | components/InputForm.tsx:173 | the image content is `undefined` exactly when the data URL has no comma |
| `InputForm.Submit` | components/InputForm.tsx:137-185 | a payload keeps the selected tone; `description` maps to `text` with the untrimmed description, `name` to `similar` with the untrimmed name, `logo` to `image` with a MIME type; the image-error alert happens exactly when a URL is set, there is a preview and the fetch fails; a fetched blob read back as `null` makes `split` throw outside the `try`, with no alert and no payload |
| `InputForm.SubmitDisabled` | components/InputForm.tsx:403 | loading always disables the button; otherwise it is disabled exactly when the current mode's field is empty without trimming, or a logo has no non-empty preview |
| `InputForm.SubmitRejectsExactlyBlank` | components/InputForm.tsx:142-149 | nothing is sent exactly when the description (or the name) is all whitespace, or, in logo mode, when there is no preview |
| `InputForm.SubmitImageSource` | components/InputForm.tsx:151-179 | the logo's MIME type is the blob's when a URL is set, else the chosen file's, else `image/png`; its data is the data part of the fetched data URL or of the preview; a `null` read of the fetched blob sends nothing |
| `InputForm.EnabledButRejected` | components/InputForm.tsx:403 | when not loading, the button is enabled yet the submit sends nothing exactly when the description or name is non-empty but all whitespace; a disabled button never hides a payload |
| `InputForm.SubmittedLogoMimeTypeNeverEmpty` | components/InputForm.tsx:151-179 | a submitted logo reaches the service as two parts whose inline MIME type is never empty, even when the blob or file reports an empty type |
| `InputForm.BinaryBytes` | components/InputForm.tsx:118-121 | the byte array is as long as the binary string |
| `InputForm.CopyToBytes` | components/InputForm.tsx:118-121 | the loop fills an array of the string's length with `charCodeAt(i)` stored as a `Uint8Array` element (modulo 256) at each index |
| `InputForm.BinaryBytesExact` | components/InputForm.tsx:117-121 | for a binary string as `atob` returns it, byte `i` equals the code of character `i` |
| `InputForm.FormState.constructor` | components/InputForm.tsx:23-38 | the form starts in description mode, tone `modern`, every field empty, and at most one image source |
| `InputForm.FormState.SetMode` | components/InputForm.tsx:192 | a tab click sets the mode |
| `InputForm.FormState.SetTone` | components/InputForm.tsx:387 | a tone button sets the tone |
| `InputForm.FormState.SetDescription` | components/InputForm.tsx:296 | typing sets the description |
| `InputForm.FormState.SetNameInput` | components/InputForm.tsx:309 | typing sets the reference name |
| `InputForm.FormState.HandleFileChange` | components/InputForm.tsx:43-56 | choosing a file records it and clears the URL, leaving one image source; no file changes nothing |
| `InputForm.FormState.PreviewLoaded` | components/InputForm.tsx:51-53 | the reader's callback sets the preview to its result: the file's data URL, or `null` when the read failed |
| `InputForm.FormState.HandleSubmit` | components/InputForm.tsx:137-179 | submitting the current fields gives the `Submit` outcome with the form's tone; as a URL and a file are never both set, a logo with a chosen file is sent with that file's type and its preview's data, and never fails on a fetch |
| `InputForm.FormState.HandleUrlChange` | components/InputForm.tsx:58-67 | a non-empty URL clears the file and becomes the preview; an empty URL clears the preview; afterwards there is one image source at most |
| `InputForm.FormState.RemoveImage` | components/InputForm.tsx:326-330 | Remove clears the preview, the file and the URL |
| `InputForm.FormState.LoadReadme` | components/InputForm.tsx:115-124 | the description becomes the decoded text of the copied README bytes |
| `App.ErrorMessage` | constants.ts:10-53 | the error shown for each language is a fixed, non-empty message |
| `App.SynthesizedDescription` | App.tsx:54 | the made-up description is non-empty, names the liked item and ends with the item's own description |
| `App.ContextOf` | App.tsx:30-34 | the recorded context has the call's tone, and has a description exactly for text input, where it is the content |
| `App.DescriptionContext` | App.tsx:54 | "more like this" uses the recorded description when present and non-empty, otherwise `A program named <name>: <description>`; never empty |
| `App.ToneContext` | App.tsx:55 | the recorded tone, or `modern` when nothing was recorded |
| `App.AppState.constructor` | App.tsx:12-20 | the page starts in English, with no results, not loading, no error and no context, so no error is shown beside results |
| `App.AppState.SetLanguage` | App.tsx:12 | the language toggle sets the language |
| `App.AppState.BeginGenerate` | App.tsx:23-34 | before the service is called: loading, no error, no results, and the context recorded for this input and tone |
| `App.AppState.BeginMoreLikeThis` | App.tsx:48-50 | before the related call: loading, no error, no results, context untouched |
| `App.AppState.Settle` | App.tsx:36-44 | success sets the results to the returned list; failure shows the language's error message and leaves the results; loading stops either way |
| `App.AppState.HandleGenerate` | App.tsx:22-45 | after a generation the results are the returned list with no error, or empty with the language's error message; the context is the one for this input; not loading, and never an error beside results |
| `App.AppState.HandleMoreLikeThis` | App.tsx:47-70 | related names are requested for the item's name with the fallback description and tone; results or error as above; the context is unchanged; not loading, and never an error beside results |
| `App.MoreLikeThisAfterFormDescription` | App.tsx:54 | after a description submitted by the form, "more like this" uses that description unchanged and the same tone, never the synthesized fallback |
| `App.MoreLikeThisAfterNonText` | App.tsx:30-34 | after an image or a reference name, "more like this" falls back to the synthesized description, in the same tone |

## Left out

- The `GoogleGenAI` client, `generateContent` and `JSON.parse` are foreign calls. They are the parameters `endpoint` and `parse`. A parse that yields a non-array value is not modelled, because the source casts it unchecked. An array whose elements are not such records (`[{}]`, `[1, 2]`) is not modelled either, for the same reason.
- Temperatures 0.8 and 0.85 are recorded as exact `real` constants; no floating-point behaviour is modelled.
- The `response.text` getter is treated as a plain optional field; a getter that throws is not modelled.
- `console.error` logging of the underlying cause is not modelled.
- The `else` branch of the service's input switch is not modelled. It leaves an empty instruction and prompt for an unknown `type`; the closed `GenerationInput` type has no such value.
- App.AppState.HandleGenerate: treats the `await` as atomic. A newer call can be overwritten by an older call that resolves later (no request identity is tracked). `BeginGenerate` and `Settle` can be interleaved by hand to study this, but no lemma states it.
- App.AppState.HandleMoreLikeThis: treats the `await` as atomic, for the same reason.
- GitHub repository listing (`fetchRepos`) and README fetching are network calls. This covers the `response.ok` and `data.encoding === 'base64'` checks and their error messages. `atob` and `TextDecoder` are not modelled either. Only the successful path from the decoded binary string is modelled (`LoadReadme`, `CopyToBytes`).
- Fetching the image URL and reading the blob with `FileReader` are given as the `ImageFetch` parameter. The `alert` becomes the `ImageLoadFailed` outcome. The `TypeError` from `split` on a `null` read is the `SplitOnNull` outcome; the unhandled promise rejection it causes is not modelled further.
- InputForm.CopyToBytes: characters are Unicode scalar values, not UTF-16 code units. This differs from `charCodeAt` only above U+FFFF, which `atob` never produces.
- JSX rendering, styling, the description-source toggle, `Header`, `Hero`, `Footer` and `ResultsGrid` (including the clipboard copy) are presentation only.
- The translation table in `constants.ts` is not modelled beyond the two `errorMessage` strings.
