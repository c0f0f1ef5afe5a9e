# Mockup generator: state machine, data-URL split and generation client

This project models the logic of a browser page that takes an uploaded PNG,
a context category ("caneca", "camiseta", ...) and an optional style hint,
and asks a generative-image service for four photorealistic mockups. It
proves properties of that model in Dafny.

The model has five modules:

- `Wrappers` holds `Option` and `Result`. `Option` stands for JavaScript's
  `null`/`undefined`, and `Result` for a settled promise.
- `Text` models JavaScript's `String.prototype.split` with a one-character
  separator, and `Join` as its inverse. `SplitUnique` proves that the split
  is the only separator-free cut that joins back to the input.
- `Encoder` models `fileToBase64`. The `FileReader` delivers the data URL as
  an input value, and the model splits `data:<mime>;base64,<payload>` into
  the media type and the payload, with a round-trip lemma.
- `GeminiService` models `generateMockup`. It covers the prompt template,
  the single request, the first-match search for an inline-image part in
  the first candidate, and the collapse of every failure into one message.
  The SDK reply is an input value.
- `App` models the page state (`uploadedImage`, `mockups`, `isGenerating`,
  `error`, plus the selected category and hint). The upload handler is one
  pure transition. The generate and redo handlers each become two: the
  synchronous part that runs on the click, and the settlement of its awaited
  work. Every `Date.now()` reading, the file read
  and each remote reply are inputs. `Step`/`Run` replay any interleaving of
  these events, and `RunKeepsInv` proves the invariant holds after every run:
  the list is empty or a full batch of four, and the ids strictly increase.

Behaviour of the code worth noting:

- A rejected upload does not reset `uploadedImage`. A PNG accepted earlier
  stays in place; only the validation message is set.
- A batch or redo can succeed with an absent image. The SDK types
  `inlineData.data` as optional, and the code passes it through unchecked.
  So `src` is the reply's optional data, not a guaranteed string.
- Card ids are `Date.now() + i`, and the clock is read once per element.
  The ids are distinct only while the clock does not run backwards
  (`ClockStepBackDuplicatesId`).
- A data URL whose header has no colon makes the `onload` callback throw.
  The promise then neither resolves nor rejects, so that batch or redo never
  settles and the page stays generating. It is not reported as an encoding
  failure. A real `FileReader` URL always has the colon.
- The "upload an image first" branch of the generate handler cannot be
  reached by a click. The button is disabled whenever no image is uploaded
  (`EnabledClickStartsBatch`).
- A successful redo does not clear an error message set earlier.

## Model

| member | source | states |
|---|---|---|
| Text.Split | App.tsx:34-35 | every piece is free of the separator, the pieces joined with the separator give back the input, there is always at least one piece, and there are two or more exactly when the separator occurs |
| Text.SplitWithoutSep | App.tsx:34-35 | a string without the separator splits into itself alone |
| Text.SplitAtFirstSep | App.tsx:34-35 | the first separator closes the first piece and the remainder is split independently |
| Text.SplitUnique | App.tsx:34-35 | any list of separator-free pieces is recovered by splitting its join, so the split is the unique such decomposition |
| Encoder.ParseDataUrl | App.tsx:33-36 | the parse throws exactly when the header before the first comma holds no colon; a resolved media type never contains `:`, `;` or `,`; the payload is present exactly when the URL contains a comma, and then holds no comma |
| Encoder.FileToBase64 | App.tsx:28-40 | a read error, and only a read error, rejects; a URL that parses always resolves, with exactly the parsed media type and payload; a header that makes the parse throw leaves the promise pending |
| Encoder.ParseWellFormedHeader | App.tsx:34-36 | a URL whose first comma-piece is `data:<mime>;base64` and second is the payload parses to exactly that media type and payload |
| Encoder.ParseFormatRoundTrip | App.tsx:34-36 | splitting `data:<mime>;base64,<payload>` yields exactly `(mime, payload)` when the media type has no `:`, `;` or `,` and the payload has no `,` |
| Encoder.PayloadCommaTruncates | App.tsx:34 | a payload containing a comma comes back cut at its first comma, so the round trip's condition on the payload is needed |
| Encoder.HeaderWithoutColonStalls | App.tsx:32-38 | a data URL whose header before the first comma has no colon leaves the encoding pending forever instead of rejecting, even if a colon follows the comma |
| GeminiService.Prompt | services/geminiService.ts:26 | the prompt is the fixed opening, then the category verbatim, then ". ", then the hint verbatim, at fixed positions and with the matching length |
| GeminiService.PromptDeterminesHint | services/geminiService.ts:26 | for a fixed category, two hints giving the same prompt are equal |
| GeminiService.PromptDeterminesCategory | services/geminiService.ts:26 | for a fixed hint, two categories giving the same prompt are equal |
| GeminiService.EmptyHintPrompt | services/geminiService.ts:26 | an empty hint is allowed and the prompt then ends with the category's ". " |
| GeminiService.BuildRequest | services/geminiService.ts:29-47 | the request names the image model, holds the image part then the text part with the prompt, and asks for an image back |
| GeminiService.CandidateParts | services/geminiService.ts:49 | missing candidates, an empty candidate list, missing content or missing parts all read as an empty part list; otherwise the parts of the first candidate |
| GeminiService.FirstInlineData | services/geminiService.ts:49-53 | the result is absent exactly when no part carries inline data, and otherwise it is the inline data of a part before which no part carries any |
| GeminiService.LaterPartsIgnored | services/geminiService.ts:49-53 | once a part with inline data has been found, appending further parts does not change the result |
| GeminiService.GenerateReturnsFirstImage | services/geminiService.ts:49-53 | a reply whose earliest image part is at position i yields that part's data |
| GeminiService.Attempt | services/geminiService.ts:49-55 | a remote error propagates its own message, a reply without an image part raises the no-image error, and a reply with an image part succeeds with the first such part's data |
| GeminiService.Normalize | services/geminiService.ts:57-60 | success passes through unchanged and every failure becomes the single client message |
| GeminiService.Generate | services/geminiService.ts:18-61 | each invocation issues exactly one request, built from its arguments; it succeeds exactly when the reply carries an image part in its first candidate; every failure has the message "Falha ao gerar a imagem do mockup." |
| GeminiService.FailuresLookAlike | services/geminiService.ts:55-60 | a remote error and a reply without an image produce identical invocations |
| GeminiService.MissingStructureFails | services/geminiService.ts:49-55 | a response missing its candidates, content or parts fails with the common message |
| App.HandleImageUpload | App.tsx:17-26 | a PNG sets the uploaded image and clears the error; any other file, or none, sets the validation message and keeps the previous image; the mockup list and the generating flag never change |
| App.StampedIdsIncrease | App.tsx:50 | ids `clock_i + i` from a non-decreasing clock strictly increase, so they are distinct |
| App.ClockStepBackDuplicatesId | App.tsx:50 | a clock stepping back by one millisecond gives two placeholders the same id |
| App.Placeholders | App.tsx:50 | four cards, each loading, without an image, with the id stamped from its own clock reading |
| App.ResolvedCards | App.tsx:61 | one settled card per result, in result order, with the result as its image and an id stamped from its own clock reading |
| App.HandleGenerateClick | App.tsx:42-50 | without an image only the validation message changes, and the list and generating flag are untouched; with one there are exactly four loading placeholders without images and with ids `clock_i + i`, the error is cleared and the page is generating |
| App.FormIncomplete | App.tsx:87 | a complete form always has an uploaded image and a non-empty category |
| App.GenerateEnabled | App.tsx:150 | the button is enabled exactly when no batch is running and the form is complete, so an enabled button always has an image behind it |
| App.EnabledClickStartsBatch | App.tsx:150 | a click on the enabled button runs the handler's batch branch, leaving the page generating with the error cleared |
| App.DisabledClickIgnored | App.tsx:150 | a click while generating, or with no image or no category (App.tsx:87), leaves the page exactly as it was |
| App.JoinAll | App.tsx:59 | the join succeeds exactly when every call succeeded, and then yields every value at its own position |
| App.BatchCalls | App.tsx:53-57 | one invocation per reply, all sending the same request built from the single shared encoding, each succeeding exactly when its reply carries an image |
| App.SettleGenerate | App.tsx:52-68 | the batch is all-or-nothing: the list ends empty with the batch message, or has four settled cards with freshly stamped ids, and it is the latter exactly when the file was encoded and all four replies carry an image; card i holds the data of the first image part of reply i; the generating flag ends false; a stalled encoding changes nothing |
| App.SettledIdsFresh | App.tsx:61 | settled ids differ from every placeholder id once the settling clock is at least four past the last placeholder reading |
| App.HandleRedoOne | App.tsx:71-74 | without an image nothing changes; otherwise only cards with the id start loading, keeping their id and image, and length, order and every other card stay the same |
| App.SettleRedo | App.tsx:76-84 | success replaces the card with the id by a settled card with the same id and the data of the reply's first image part; failure sets the redo message and stops its loading with its image unchanged; every other card, the length and the generating flag never change |
| App.RedoUnknownIdKeepsList | App.tsx:74-83 | a redo for an id that no card carries leaves the list unchanged, both when it starts and when it settles |
| App.Step | App.tsx:17-85 | an upload, a redo click and each settlement reach their own handler; a click on the disabled button leaves the page as it was, one on the enabled button starts a batch of four; a category click (App.tsx:128) or hint edit (App.tsx:142) stores exactly the new value and changes nothing else; no event removes an uploaded image |
| App.StepKeepsInv | App.tsx:17-85 | every event keeps the invariant: the list is empty or four long, ids strictly increase, and a running batch has an uploaded image |
| App.RunKeepsInv | App.tsx:17-85 | every state reached by any sequence of events from an invariant state satisfies the invariant |
| App.UploadedImageNeverCleared | App.tsx:17-26 | once an image is uploaded, no sequence of events removes it |
| App.Initial | App.tsx:9-15 | the initial page has no image, no cards, no batch running, no message, the first category and an empty hint, and it satisfies the invariant |
| App.UploadGenerateScenario | App.tsx:42-68 | from a fresh page: uploading a PNG, clicking generate and four image replies give four settled cards with distinct ids, no error and the batch finished, for any hint including the empty one |

## Left out

- Rendering: the JSX, `components/MockupCard.tsx` and its anchor-click download are presentation. The card offers redo only when it is not loading and has a non-empty image (components/MockupCard.tsx:37). The page does not enforce that, so redo events are not restricted by it.
- The `FileReader` read and the `URL.createObjectURL` preview are browser I/O. The read arrives as a `FileRead` value, and the preview field is omitted. The base64 encoding of the file's bytes is done by the browser, so it is not modelled.
- The SDK call, the client construction and the module-load `API_KEY` check (services/geminiService.ts:1-8) are left out. They are a foreign network library and environment access. The reply is an input value.
- `Promise.all` concurrency is reduced to atomic settlement events. Which rejection arrives first is not modelled, because the page discards the error value anyway. Events in `Run` may interleave freely. A settlement event is not tied to a prior click, so no invariant links a non-empty list to an uploaded image.
- The category and hint captured by a handler's closure are carried as parameters of its settlement event.
- The category list is defined in a constants file that is not part of this model. The initial category is a parameter of `Initial`.
- `Date.now()` becomes a sequence of readings, one per card stamped.
- `console.error` logging and CSS classes are left out.
- App.SettledIdsFresh: states only the sufficient condition for fresh ids. With readings less than four milliseconds apart, collisions depend on the individual readings.
