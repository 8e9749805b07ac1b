# Virtual try-on demo: a verified model of the run orchestration

The system is a browser page where a student enters their student id, uploads a photo of
themselves and a photo of a garment, and starts a "try-on". The page then calls a remote AI
service three times, one call after another: it describes the person, it describes the
garment, and it synthesises an image from a prompt built from both descriptions. While a call
is outstanding the page shows a progress overlay. The run ends either with the generated
image or with an error message.

This project models, in Dafny, the deterministic logic around those calls:

- `Types` (types.ts): the six-valued `AppStep`, `ApiError`, and the two response shapes.
- `Api` (services/api.ts):
  - the HTTP status to message table;
  - the `st_` Authorization value;
  - the two request bodies;
  - how a response becomes either the extracted text or image, or a thrown error.
  
  The network exchange is a parameter `fetch` from request to response.
- `ImageUploader` (components/ImageUploader.tsx): the file-change handler. It applies the
  2 MiB ceiling and strips the `data:image/<word>;base64,` prefix.
- `ProcessingOverlay` (components/ProcessingOverlay.tsx): maps a step to its progress label.
- `App` (App.tsx):
  - form validity and the disabled/overlay predicates;
  - the `Pipeline` specification of one run;
  - the `TryOnSession` class. Its fields are the page's state cells and its methods are
    the handlers `handleStartTryOn` and `reset`.

  The remote service is a function `respond` from a `Call` to `Ok(text)` or `Err(message)`.
  `StartTryOn` returns the calls it issued and the views it rendered. A view is the triple of
  step, error and result. One view is rendered before each call, under that call's
  in-flight step, and one when the run ends, after the last call returns.
- `JsText`: the two JavaScript built-ins the core relies on. These are `String.prototype.trim`
  and the decimal rendering of a number in a template literal.

The model follows the code where a reader might expect otherwise:

- No guard against overlapping runs. `handleStartTryOn` checks only form validity. Only the
  disabled button prevents a second run. So `StartTryOn` accepts any current step.
- No MIME type check. The uploader restricts types only through the `accept` hint of the
  input. `HandleFileChange` never reads the file's type, so for a given read result the
  type changes nothing (`MimeTypeNotChecked`). The type does reach the read result, as
  noted under "Left out".
- The fallback error text is used only when the thrown message is empty. Any non-empty
  message is shown verbatim.
- A missing candidate or part has no message of its own. The code just indexes into the
  response, so the JavaScript engine's TypeError text is what is shown.
- The result is not decoded. It is stored as `data:image/png;base64,` followed by the
  service's payload.
- The id is checked after trimming, but the Authorization value is built from the untrimmed
  id. For example, `" A1 "` passes the check and the value built is `st_ A1 `.
- Every uploaded image is declared to the service as `image/jpeg`, PNG files included.

## Model

| member | source | states |
|---|---|---|
| `JsText.TrimSpec` | App.tsx:16 | `trim()` gives the empty string exactly when the id is all ECMAScript whitespace. Otherwise the trimmed text starts and ends with a non-whitespace character. |
| `JsText.TrimStartSpec` | App.tsx:16 | Leading trim keeps the suffix that starts at the first non-whitespace character. Everything it drops is whitespace. |
| `JsText.TrimEndSpec` | App.tsx:16 | Trailing trim keeps the prefix that ends at the last non-whitespace character. Everything it drops is whitespace. |
| `JsText.NumberToStringRoundTrip` | services/api.ts:17 | The decimal rendering of a status embedded in the generic message can be read back to the same integer. |
| `Api.HandleApiError` | services/api.ts:6-19 | Total over all integer statuses and never empty. For 401/404/405/500 the message carries no status. Any other status appears in the generic message as its plain decimal rendering, with no leading zero, and can be recovered from it. |
| `Api.MappedStatusMessages` | services/api.ts:7-15 | 401, 404, 405 and 500 map to their four fixed messages, which are pairwise distinct. |
| `Api.HandleApiErrorInjective` | services/api.ts:6-19 | Distinct statuses are reported with distinct messages. |
| `Api.Authorization` | services/api.ts:29 | The header value is `st_` followed by the raw student id, and the id can be read back unchanged. |
| `Api.ImageToTextRequest` | services/api.ts:26-45 | The path `/image-to-text` with the id's Authorization value. The body has one content: the prompt first, then the image declared as `image/jpeg` with the given base64 data. |
| `Api.TextToImageRequest` | services/api.ts:59-70 | The path `/text-to-image` with the id's Authorization value. The body has one content with exactly one part, the prompt, and carries no image. |
| `Api.ImageToText` | services/api.ts:21-53 | A non-ok status (outside 200-299) yields exactly `ApiError{status, handleApiError(status)}`. An empty `candidates` fails as reading `content` of `undefined`, and an empty `parts` as reading `text`. Success holds iff the status is ok and there is a first candidate with a first part. The value is then that part's text. |
| `Api.TextToImage` | services/api.ts:55-78 | Same failure rule, except that an empty `parts` fails as reading `inline_data`. On success the value is the `inline_data.data` of the first part of the first candidate. |
| `ImageUploader.StripDataUriPrefix` | components/ImageUploader.tsx:25 | The result is a suffix of the data URL. Whatever was removed is a whole `data:image/\w+;base64,` prefix at position 0. |
| `ImageUploader.StripRemovesPrefix` | components/ImageUploader.tsx:25 | When the string starts with such a prefix, exactly that prefix is removed and the remainder is kept. |
| `ImageUploader.StripKeepsUnprefixed` | components/ImageUploader.tsx:25 | A string with no such prefix passes through unchanged. |
| `ImageUploader.DataUriPrefixLength` | components/ImageUploader.tsx:25 | The regex match length is 0 or the length of a prefix that fits the pattern. |
| `ImageUploader.WordRun` | components/ImageUploader.tsx:25 | `\w+` is greedy: the run is all word characters and stops at a non-word character or at the end. |
| `ImageUploader.HandleFileChange` | components/ImageUploader.tsx:13-29 | No file: no effect. Over 2·1024·1024 bytes: rejected, no callback. Otherwise, if the read succeeded, the callback gets the stripped data URL and the same file. |
| `ImageUploader.SizeBoundary` | components/ImageUploader.tsx:17-20 | A file of exactly 2 MiB is accepted. One byte more is rejected. |
| `ImageUploader.MimeTypeNotChecked` | components/ImageUploader.tsx:13-29 | For the same read result, changing only the declared MIME type never changes the outcome. |
| `ImageUploader.WordRunStops` | components/ImageUploader.tsx:25 | The greedy `\w+` run ends exactly at the first non-word character after its start. |
| `ImageUploader.SvgKeepsPrefix` | components/ImageUploader.tsx:25 | A data URL of type `image/svg+xml` does not match the pattern, so its prefix is kept whole. |
| `ProcessingOverlay.StatusText` | components/ProcessingOverlay.tsx:10-17 | The generic label `處理中` is returned exactly for the steps other than the three in-flight ones. |
| `ProcessingOverlay.InFlightLabels` | components/ProcessingOverlay.tsx:12-14 | `analyzing_user`, `analyzing_cloth` and `generating` map to `分析人物特徵中`, `解構服裝細節中` and `正在為您合成專屬穿搭`, which are pairwise distinct. |
| `App.IsFormValid` | App.tsx:16 | The form is valid iff the id has a non-whitespace character and both images are present. This equals the source's `trim() !== ''` test. |
| `App.InputsDisabled` | App.tsx:85 | The id input and both uploaders are disabled exactly in `analyzing_user`, `analyzing_cloth` and `generating`. |
| `App.StartDisabled` | App.tsx:108 | The start button is disabled exactly when the form is invalid or the step is `analyzing_user`, `analyzing_cloth` or `generating`. |
| `App.OverlayShown` | App.tsx:240 | The overlay is shown exactly in the three in-flight steps. Whenever it is shown, its label is a specific one, not the generic label. |
| `App.OverlayExactlyWhileDisabled` | App.tsx:240 | The overlay is shown exactly when the inputs are disabled. |
| `App.FinalPrompt` | App.tsx:39 | The prompt is the fixed framing, then the person description, then `，穿著：`, then the garment description, then the fixed qualifiers, at the stated offsets. |
| `App.ErrorText` | App.tsx:45 | The shown error is never empty. It is the thrown message when that message is non-empty, and otherwise the fixed `發生未知錯誤，請稍後再試。`. |
| `App.Pipeline` | App.tsx:24-47 | The run makes one to three calls. The person is described first with the attribute prompt, the garment second with the garment prompt, and only then is the image synthesised from `FinalPrompt` of the two descriptions. Every call but the last succeeded. Call i runs under step i of `analyzing_user`, `analyzing_cloth`, `generating`. Every rendered view keeps result and error exclusive. The run ends in `error` iff the last call failed, with the error text and no result. Otherwise it ends in `success` with `data:image/png;base64,` + output. |
| `App.PipelineSucceeds` | App.tsx:25-43 | When all three calls succeed, the steps are `analyzing_user, analyzing_cloth, generating, success`. The result is the PNG data URI of the output and there is no error. |
| `App.PipelineStopsAtFailure` | App.tsx:44-47 | If call k fails, it is the last call issued. The steps are the first k+1 of `analyzing_user, analyzing_cloth, generating`, then `error`, and the final view shows the error text with no result. |
| `App.Respond` | services/api.ts:47-77 | What `err.message` (read at App.tsx:45) is after a call to either client function. A non-ok status gives `handleApiError(status)`. An empty `candidates` gives the TypeError for reading `content`, an empty `parts` the one for `text` (`inline_data` for synthesis). Success holds iff there is a first part, and then its text or inline data is returned. |
| `App.HttpFailureEndsRun` | App.tsx:44-47 | A non-ok status on any call k ends the run: k+1 calls are issued, and the final view shows `handleApiError(status)` with no result. |
| `App.UnauthorizedEndsRun` | services/api.ts:47-49 | If the first image-to-text call gets status 401, only that call is issued. The run ends in `error` with the fixed 401 message and no result. |
| `App.MainPanel` | App.tsx:134-156 | In a consistent view the result is shown exactly on `success` and the error exactly on `error`. Otherwise the placeholder is shown. |
| `App.WorkedExample` | App.tsx:25-43 | With descriptions "female, standing pose" and "red silk dress" and output "ABC123", the synthesis prompt embeds both, person first. The final view holds `data:image/png;base64,ABC123`. |
| `App.TryOnSession.constructor` | App.tsx:9-14 | Initial state: empty id, no images, `setup`, no error, no result. |
| `App.TryOnSession.SetStudentId` | App.tsx:84 | The id input's change handler stores the typed value. |
| `App.TryOnSession.SelectPersonImage` | App.tsx:93 | The person uploader's callback stores the image. |
| `App.TryOnSession.SelectClothImage` | App.tsx:100 | The garment uploader's callback stores the image. |
| `App.TryOnSession.Fail` | App.tsx:44-47 | The catch branch sets the error text, then `error`, and leaves the result untouched. It is called only once the result has been cleared, and it keeps result and error exclusive (`Valid`). |
| `App.TryOnSession.StartTryOn` | App.tsx:18-48 | On an invalid form it issues no call and changes nothing. Otherwise the calls and views are those of `Pipeline`, and the state is the last view. Result/error exclusivity (`Valid`) is preserved. |
| `App.TryOnSession.RunPipeline` | App.tsx:20-47 | Step `analyzing_user` with error and result cleared before any call, then the run exactly as `Pipeline`. The id and both images are untouched. |
| `App.TryOnSession.Reset` | App.tsx:50-54 | Back to `setup` with result and error cleared. The id and both images are unchanged. |

## Left out

- The Fetch Standard's header-value handling. `fetch` strips leading and trailing HTTP
  whitespace from the Authorization value, so the service receives `st_ A1` for `" A1 "`. It
  also rejects a value holding an interior CR, LF or NUL, or a code point above U+00FF,
  before any request is sent. The model stops at the value `Authorization` builds.
- The link between a file's type and its data URL. `readAsDataURL` writes the file's declared
  type into the data URL's media type, but the model takes the read result as a parameter
  independent of `File.mimeType`. A type that is not `image/` followed by word characters
  (such as `image/svg+xml`, which passes the `accept` hint by drag-and-drop or "All files")
  leaves the prefix in place, and the whole data URL is then sent as the payload
  (`SvgKeepsPrefix`).
- The network: `fetch`, the base address, headers other than Authorization, and the POST
  verb. The model keeps only the path. Each exchange is a function parameter.
- JSON (de)serialisation. Only the typed response shapes of types.ts are modelled, so a
  response missing a field (rather than having an empty array) is not modelled. The body of
  a non-ok response is never read.
- The text of the runtime TypeError for a missing candidate or part. It is engine-defined,
  so it is a parameter of `App.Service`: a function of the property read from `undefined`
  (`content`, `text` or `inline_data`).
- Render timing. A view is one render of step, error and result. The model assumes React
  batches `setResultImg` with `setStep('success')` (App.tsx:42-43) and `setErrorMsg` with
  `setStep('error')` (App.tsx:45-46), although both pairs run after an `await`. Without that
  batching an intermediate render such as `generating` with a result already set would
  occur, and `Consistent` would not hold of it.
- A rejected `fetch` and an invalid JSON body. At the App level they are any `Err(message)`
  outcome.
- `FileReader`/`readAsDataURL`. These are browser APIs: the resulting data URL (or `None` if
  the read fails) is a parameter. `alert` is modelled only as the `TooLarge` outcome.
- `URL.createObjectURL` previews. Only carried as an opaque string in `Image`.
- The download anchor, the inspiration gallery, header, footer and all layout.
- Asynchronous suspension. A run executes to completion inside one method call. The
  states rendered between awaits are reported as `views` rather than being observable
  between calls.
- Overlapping runs. The source has no guard, so none is modelled.
- Base64 validity or decoding. The code never decodes; it only prefixes a data-URI header.
