# ClearView AI: session state machine and watermark-removal adapter

ClearView AI is a single-page browser application. A user uploads an image
(at most 5 MiB), and the application sends it to a remote generative-image
model to remove watermarks. It then shows the result next to the original
and offers it for download. The application does no image processing of its
own. Its local logic has two parts, and this project models both, together
with the shared types:

- **`ClearViewApp`** (App.tsx) is the session state machine. The class `App`
  holds the fields that the component keeps in `useState`: `appState`,
  `originalImage`, `processedImage`, `processingOptions` and `alert`. Each
  handler is one method. Two events complete asynchronously, and each is a
  method that takes its outcome as a parameter:
  - `ReadCompleted` is the file reader's load event.
  - `CompleteProcess` applies the awaited result of the service call.

  The five-second alert timer is the event `ExpireAlert`. Two ghost counters
  (`readsInFlight`, `requestsInFlight`) track the loads and calls that have
  not completed yet.
- **`GeminiService`** (services/geminiService.ts) is `removeWatermark`,
  written as pure functions. The remote call is the parameter
  `generate: Request -> CallOutcome`. It maps the request that would be sent
  to either a response or a thrown message. The API key is a string
  parameter.
- **`Types`** (types.ts) holds the phase enumeration, the options record and
  the alert record. **`Wrappers`** holds `Option` (for `null`) and `Result`
  (for a value or a thrown error's message).

JavaScript truthiness is written out wherever the source relies on it. The
empty string counts as absent in five places: the API key, the reader's
result, the response text, an error's message and the stored images.

## The session invariant

`App.Valid()` is the invariant that the render guards presuppose:

- In IDLE there is no image.
- In PREVIEW and PROCESSING there is a non-empty original image and no
  processed image.
- In COMPLETED the original image is non-empty and a processed image is
  present (it is whatever string the service returned).
- ERROR never occurs.
- Options stay within 0..100, and every alert is an error.
- At most one asynchronous operation is outstanding. A service call is in
  flight exactly while the phase is PROCESSING, and a file load is in flight
  only while the phase is IDLE.

The state machine has no phase checks of its own. Each method therefore
states the new state exactly for any current state. It then proves `Valid()`
is preserved under these conditions on the events:

- the uploader is rendered only in IDLE (App.tsx:116-127);
- Cancel is disabled while processing (App.tsx:172);
- the process button is shown only in PREVIEW and PROCESSING (App.tsx:133);
- no second file is accepted while a load is still pending;
- the process button is not clicked again while processing.

The first three are enforced by the rendering. The last two are not: the
uploader stays live in IDLE while a load is pending, and the source does not
show whether a loading button ignores clicks. Each of them, when broken,
leads to COMPLETED with no original image, and a method proves each case:

- `DoubleProcessThenReset`: the process button is clicked twice, the first
  call completes, the user resets, and the second call succeeds.
- `SecondUploadThenReset`: two files are accepted, the first load shows a
  preview, the user starts processing, and the second load returns the
  session to PREVIEW. There Cancel is enabled; the user cancels, and the call
  then succeeds.

The success branch of `handleProcess` (App.tsx:52-54) has no phase check,
which allows both. No method ever sets ERROR, whatever the order of events.

`RunProcess` composes the two halves of `handleProcess` with
`RemoveWatermark`. Every error the service produces has a non-empty message.
So the fallback "Failed to process image. Please try again." in App.tsx is
never shown when the service is `removeWatermark`: the alert always carries
the service's own message.

`handleReset` (App.tsx:64-68) leaves the alert as it is, and the uploader is
rendered only while IDLE (App.tsx:116-127).

## Model

| member | source | states |
|---|---|---|
| `ClearViewApp.App.constructor` | App.tsx:10-17 | The session starts idle with no images, options {aggressiveness 50, detectOnly false}, no alert, and satisfies the session invariant |
| `ClearViewApp.App.HandleImageSelect` | App.tsx:27-42 | A file is accepted exactly when its size is at most 5 MiB (5 MiB itself is accepted). A rejected file sets the single error alert "File too large…" and changes nothing else. An accepted file starts a load and leaves the alert and all state as they were |
| `ClearViewApp.App.ReadCompleted` | App.tsx:34-41 | A non-empty result becomes the original image, the phase becomes PREVIEW, and the processed image and the alert are cleared. An empty or absent result changes nothing. The invariant is preserved |
| `ClearViewApp.App.HandleProcess` | App.tsx:45-52 | With no (or an empty) original image this is a no-op that makes no call. Otherwise the phase becomes PROCESSING, the alert is cleared, and the call is made with the current image and options, captured then. The invariant is preserved from IDLE and PREVIEW |
| `ClearViewApp.App.CompleteProcess` | App.tsx:52-61 | On success the processed image is the returned string and the phase is COMPLETED. On failure the phase returns to PREVIEW and exactly one error alert is set, with the error's message or the fallback. The original image is kept in both cases, and the invariant is preserved |
| `ClearViewApp.App.RunProcess` | App.tsx:45-61 | From PREVIEW, the whole handler with `RemoveWatermark` as the service. The outcome is the service's result for the captured image and options. Success leads to COMPLETED with that image and no alert. Failure leads to PREVIEW with an alert carrying exactly the service's message |
| `ClearViewApp.FailureMessage` | App.tsx:59 | The alert text is the error's message when non-empty, otherwise "Failed to process image. Please try again." It is never empty |
| `ClearViewApp.App.HandleReset` | App.tsx:64-68 | Both images become null and the phase IDLE. The alert and the options are unchanged. The invariant is preserved unless the phase was PROCESSING |
| `ClearViewApp.App.SetProcessingOptions` | App.tsx:155-159 | The options are replaced wholesale and nothing else changes |
| `ClearViewApp.App.ExpireAlert` | App.tsx:20-25 | The alert is cleared and nothing else changes |
| `ClearViewApp.App.HandleDownload` | App.tsx:70-74 | Nothing is downloaded exactly when there is no processed image. Otherwise the link points at the processed image and is named after the timestamp |
| `ClearViewApp.DownloadFilename` | App.tsx:74 | The name starts with "clearview-cleaned-" and ends with ".png", with a non-empty timestamp between them |
| `ClearViewApp.Decimal` | App.tsx:74 | The timestamp's rendering is a non-empty string of digits without a leading zero |
| `ClearViewApp.DecimalRoundTrip` | App.tsx:74 | Reading back the rendered timestamp gives the timestamp |
| `ClearViewApp.DownloadFilenameInjective` | App.tsx:74 | Different timestamps give different file names |
| `ClearViewApp.OversizedUpload` | App.tsx:28-30 | A 6 MiB file leaves a new session idle with the size error alert |
| `ClearViewApp.SuccessfulSession` | App.tsx:45-54 | Upload, aggressiveness 80, and one inline image in the response give COMPLETED with the PNG-prefixed payload, and the aggressive prompt is chosen |
| `ClearViewApp.SessionWithoutKey` | services/geminiService.ts:19-21 | Processing without a key returns the session to PREVIEW with the missing-key alert |
| `ClearViewApp.SessionWithTextAnswer` | services/geminiService.ts:66-68 | A text-only response returns the session to PREVIEW with the text-instead-of-image alert |
| `ClearViewApp.DoubleProcessThenReset` | App.tsx:52-54 | A second process click, then a completion, then a reset, then the second success together give COMPLETED with no original image |
| `ClearViewApp.SecondUploadThenReset` | App.tsx:34-54 | Two accepted files, the first load, processing, the late second load, Cancel, and then the call's success together give COMPLETED with no original image |
| `GeminiService.WordRun` | services/geminiService.ts:24 | The result is the length of the maximal leading run of `\w` characters |
| `GeminiService.WordRunStopsAt` | services/geminiService.ts:24 | A run of k word characters followed by a non-word character has length exactly k |
| `GeminiService.MatchedPrefixLength` | services/geminiService.ts:24 | A reported match is a real match of `^data:image\/\w+;base64,` |
| `GeminiService.PrefixMatchLength` | services/geminiService.ts:24 | Every match of the pattern is found, and its length is fixed by the matched word (so backtracking changes nothing) |
| `GeminiService.StripDataUrlPrefix` | services/geminiService.ts:24 | The result is a suffix of the input. When anything was removed, what was removed is exactly a matching prefix |
| `GeminiService.StripRemovesPrefix` | services/geminiService.ts:24 | A matching prefix is removed, whatever follows it |
| `GeminiService.StripKeepsUnprefixed` | services/geminiService.ts:24 | A string without a matching prefix is left unchanged |
| `GeminiService.StripRemovesOnlyOnePrefix` | services/geminiService.ts:24 | Only one leading prefix is removed; a second one stays |
| `GeminiService.SelectPrompt` | services/geminiService.ts:27-33 | Below 30 gives the gentle prompt, above 70 the aggressive prompt, and 30..70 inclusive the default prompt, each as an if-and-only-if |
| `GeminiService.SelectPromptMonotone` | services/geminiService.ts:27-33 | A higher aggressiveness never selects a gentler prompt |
| `GeminiService.BuildRequest` | services/geminiService.ts:24-47 | The request carries the model name, the stripped image labelled `image/png`, and the prompt chosen by aggressiveness |
| `GeminiService.RequestIgnoresDetectOnly` | services/geminiService.ts:27-47 | Options that agree on aggressiveness give the same request, so `detectOnly` has no influence |
| `GeminiService.RequestIsAlwaysPng` | services/geminiService.ts:41-43 | Whatever media type the input data URL names, the request sends its payload as `image/png` |
| `GeminiService.FirstImageIndex` | services/geminiService.ts:56-61 | The result is the first part with inline data: every earlier part has none, and None means no part has any |
| `GeminiService.ScanParts` | services/geminiService.ts:55-62 | The loop returns the first inline payload with the PNG prefix, or nothing when no part has inline data |
| `GeminiService.InterpretResponse` | services/geminiService.ts:55-70 | Success happens exactly when some part has inline data, and the result is the first such payload re-wrapped as PNG. Otherwise the error is the text-instead error if the response text is non-empty, else the no-image-data error |
| `GeminiService.StripPngPrefix` | services/geminiService.ts:24-60 | Stripping the prefix from a result gives back its payload |
| `GeminiService.Rewrap` | services/geminiService.ts:72-74 | A caught error is rethrown with its own message when non-empty, otherwise with "An unexpected error occurred during processing."; the message is never empty |
| `GeminiService.RemoveWatermark` | services/geminiService.ts:15-76 | An empty key fails with the missing-key message whatever the remote call would do. Every error message is non-empty, and every success starts with the PNG data-URL prefix |
| `GeminiService.RemoveWatermarkSucceeds` | services/geminiService.ts:19-61 | The call succeeds exactly when the key is set and the response has a part with inline data |
| `GeminiService.ResultRoundTrip` | services/geminiService.ts:24-60 | Stripping the prefix from a successful result gives back exactly the inline data of the first image part |
| `GeminiService.RemoveWatermarkErrors` | services/geminiService.ts:64-74 | With a key set, a thrown message is passed on (or the fallback when empty), and the two response errors reach the caller unchanged |
| `GeminiService.RemoveWatermarkIgnoresDetectOnly` | services/geminiService.ts:27-47 | The outcome of the whole call does not depend on `detectOnly` |

## Left out

- The remote model client and the network call (services/geminiService.ts:1-7, 36-52) are foreign library I/O. The call is the parameter `generate`, and the key is a parameter instead of the module-level `process.env.API_KEY`.
- `console.error` logging (services/geminiService.ts:73) has no effect on behaviour.
- GeminiService.Response: the candidates are reduced to the parts of the first candidate, and `None` stands for absent candidates or absent parts. Two responses are not represented: an empty candidates array, and a first candidate without `content` (as returned when output is blocked). On either, `response.candidates[0].content.parts` (services/geminiService.ts:55) throws a TypeError, and the catch rethrows it with the JavaScript engine's message. `generate` returning `Threw` with that message reproduces the final outcome.
- GeminiService.Blob: an inline part whose `data` is undefined (the template would render "undefined") is not modelled; `data` is always a string.
- GeminiService.CallOutcome: a thrown value without a message is modelled as the empty message. Both fall back to the same text.
- FileReader decoding (App.tsx:33-42) is browser I/O. It is the event `ReadCompleted` with an optional string. A failed read simply never completes; the source has no error handler.
- The five-second timer (App.tsx:20-25) is wall-clock time. `ExpireAlert` clears whatever alert is shown. The model does not record which alert a pending timer belongs to.
- `handleDownload`'s DOM work (App.tsx:72-77) is left out. `Date.now()` is a timestamp parameter; only the link's target and name are modelled.
- All rendering (App.tsx:80-207) is left out. It appears only as the conditions under which each method preserves the invariant.
- The `Button` component is not part of this model. Whether a loading button ignores clicks is unknown, so a second `HandleProcess` during PROCESSING is allowed.
- The file's media type and the uploader's drag-and-drop handling (components/Uploader.tsx) are left out. Only the file's size reaches the model.
- The comparison slider (components/ComparisonSlider.tsx) is presentation with floating-point geometry.
- The options control (components/ProcessingControls.tsx) is folded into `SetProcessingOptions`. Its `parseInt` of the range input's value is not modelled; the slider always yields an integer in 0..100.
- The `ProcessingResult` interface (types.ts:14-18) is declared but used by no part of the core.
