# Social media content analyzer: the upload pipeline in Dafny

This project models the one route of the backend that makes decisions, `POST /upload`, and
its helper `analyzeContentWithAI` (both in `api/index.js`). The route takes one uploaded file and
picks an extractor from its declared MIME type: pdf-parse for `application/pdf`, Tesseract OCR in
English for `image/...`. It refuses text that is empty once trimmed. Otherwise it asks a
chat-completion service for suggestions and sends back exactly one JSON response.

Modules:

- `Wrappers` (`wrappers.dfy`): `Option`, standing in for JavaScript's `undefined`.
- `JsString` (`js_string.dfy`): `String.prototype.trim` and `String.prototype.startsWith`, as
  ECMA-262 (2024) defines them in sections 22.1.3.32 and 22.1.3.24. `IsJsWs` is the set that
  TrimString removes. It holds the WhiteSpace of section 12.2 (TAB, VT, FF, ZWNBSP and the Unicode
  category Zs) and the LineTerminator of section 12.3 (LF, CR, U+2028, U+2029). `Trim` is proved
  equal to the reference meaning: the one substring whose removed ends are all white space and
  whose own ends are not.
- `Upload` (`upload.dfy`): the request, file, collaborator and response datatypes. It also holds
  the dispatch, the prompt, the reading of the chat reply, and the handler `Handle`. The three
  foreign calls are the fields of `Collaborators`. Each is a total function that stands for
  whatever pdf-parse, Tesseract or the HTTP service answers. An extractor either resolves with a
  text or throws with a message. The chat POST either rejects or resolves with a body whose
  `choices` may be missing or empty. `Handle` returns the response together with the list of
  collaborator calls it made, so that "no call was made" can be stated.
- `UploadProperties` (`upload_properties.dfy`): what the handler promises, for every request
  and every collaborator behaviour.
- `UploadStages` (`upload_stages.dfy`): the handler as the state machine Received → Dispatched →
  Extracted → Validated → Analyzed → Responded, with early exits. Each step makes at most one
  collaborator call. Running the machine gives exactly `Handle`'s response and calls.

The model follows `api/index.js` exactly where it is terse:
- The unsupported-type error carries no type string (api/index.js:56).
- Error bodies carry only `error`, plus `details` on the 500 (api/index.js:31, 56, 60, 72-75).
- The suggestions are whatever the first choice says (api/index.js:117); nothing checks them for
  the five bullet points the system message asks for.

`Handle` is a function of the request and of the collaborators. So a repeated request against
the same collaborator behaviour gives the same response and the same calls by construction.

## Model

| member | source | states |
|---|---|---|
| `JsString.TrimStart` | api/index.js:59 | the result is a suffix of the input; everything dropped is JS white space; the result is empty or starts with a non-white-space character |
| `JsString.TrimEnd` | api/index.js:59 | the result is a prefix of the input; everything dropped is JS white space; the result is empty or ends with a non-white-space character |
| `JsString.Trim` | api/index.js:59 | `trim()` is empty exactly when every character is white space or a line terminator (both directions); a non-empty result has no white space at either end |
| `JsString.TrimIsTrimOf` | api/index.js:59 | `Trim` yields a copy of the string with its leading and trailing white space removed, as TrimString defines it |
| `JsString.TrimUnique` | api/index.js:59 | any string meeting that definition equals `Trim`'s result, so `Trim` is exactly TrimString |
| `JsString.StartsWith` | api/index.js:45 | `startsWith` with position 0 holds exactly when the search string is a sequence prefix |
| `Upload.Dispatch` | api/index.js:38-57 | PDF exactly when the type equals "application/pdf"; Image exactly when "image/" is a case-sensitive prefix; Unsupported exactly when neither holds |
| `Upload.PdfIsNotImage` | api/index.js:38-45 | "application/pdf" does not start with "image/", so the two branches are disjoint and at most one extractor is chosen |
| `Upload.Prompt` | api/index.js:86-104 | the system message is the fixed instruction; the user message is the fixed prefix followed by the text unchanged |
| `Upload.PromptRoundTrip` | api/index.js:103 | the text can be recovered from the user message, and different texts give different prompts |
| `Upload.Suggestion` | api/index.js:117-122 | `choices[0].message.content` when the reply carries it; "AI suggestion failed." when the POST rejects, `choices` is missing or empty, or the first choice has no message |
| `Upload.Extract` | api/index.js:38-53 | the extractor consulted is the one `ExtractorCall` records, with the buffer (and for OCR the language "eng") recorded there |
| `Upload.AnalyzeContentWithAI` | api/index.js:80-123 | posts exactly the prompt for the text; the result is `choices[0].message.content` when the reply carries it and the sentinel otherwise; it never fails |
| `Upload.Handle` | api/index.js:26-77 | at most two collaborator calls; a success response exactly when an extractor was called first and the analysis second |
| `UploadProperties.NoFileRejected` | api/index.js:30-32 | no file: 400 "No file uploaded" and no collaborator call |
| `UploadProperties.UnsupportedRejected` | api/index.js:55-57 | any other MIME type: 400 "Unsupported file type" and no collaborator call |
| `UploadProperties.DispatchIsExact` | api/index.js:38-57 | "application/pdf; charset=binary", "Application/PDF", "IMAGE/PNG" and "image" are unsupported; "image/png" is an image |
| `UploadProperties.PdfSelectsParser` | api/index.js:38-42 | a PDF runs pdf-parse on the buffer first, and OCR never runs |
| `UploadProperties.ImageSelectsOcr` | api/index.js:45-53 | an image runs Tesseract on the buffer in "eng" first, and pdf-parse never runs |
| `UploadProperties.CallOrder` | api/index.js:37-68 | the first call, if any, is the one extractor; every later call is the analysis POST |
| `UploadProperties.ExtractionFailure` | api/index.js:70-76 | an extractor that throws gives 500 "Server processing failed" with its message as `details`; only the extractor was called |
| `UploadProperties.BlankTextRejected` | api/index.js:59-61 | text made only of white space and line terminators gives 400 "Could not extract text"; analysis is never called |
| `UploadProperties.ValidTextSucceeds` | api/index.js:63-68 | otherwise the response is a success. Its `extractedText` is the extractor's text verbatim and untrimmed. The POST carries that text's prompt. `suggestions` is the reply's content, or the sentinel when the reply has none |
| `UploadProperties.SuccessExactly` | api/index.js:29-76 | success exactly when a file of a supported type yields text that is not all white space |
| `UploadProperties.ErrorTaxonomy` | api/index.js:29-76 | errors are 400 or 500 and never follow an analysis call; 500 exactly when the extractor threw; no call at all exactly for the missing-file and unsupported-type errors |
| `UploadStages.Step` | api/index.js:29-76 | each transition moves strictly towards Responded and makes at most one collaborator call |
| `UploadStages.Run` | api/index.js:29-76 | a run ends in one response after no more calls than the steps that remain |
| `UploadStages.RunFromValidated` | api/index.js:63-68 | after validation the run makes the analysis call and ends in success |
| `UploadStages.RunFromExtracted` | api/index.js:59-61 | after extraction, blank text ends the run with the 400; other text goes on to analysis |
| `UploadStages.RunFromDispatched` | api/index.js:37-53 | after dispatch the run calls the extractor; a throw ends it with the 500 |
| `UploadStages.HandleIsRun` | api/index.js:26-77 | the state machine and the handler give the same response and the same calls for every request |

## Left out

- Server setup: creating the Express app, CORS and the JSON middleware (api/index.js:1-13), and the module export (api/index.js:126). This is framework plumbing.
- The liveness route (api/index.js:21-23) is a constant reply.
- The 5 MB upload limit (api/index.js:16-18) is enforced by multer before the handler runs, and its rejection response is produced outside this code. The model only records it as `Upload.Admitted`, a precondition of `Upload.Handle`.
- Extractor internals: what pdf-parse and Tesseract compute from the bytes is a foreign black box. They are the `parsePdf` and `recognize` oracles.
- The HTTP call's details are network I/O and configuration. These are the URL, the headers, the bearer key read from the environment, and the model name (api/index.js:82-115). A missing key shows up only as a rejected POST.
- The shape of the suggestions text: the system message asks for five bullet points, but nothing enforces it.
- Logging (`console.log`, `console.error`) and the `async`/`await` sequencing. The handler is modelled as one sequential computation.
- `Upload.Suggestion`: a first choice whose `message` has no `content` makes the source return `undefined`, which the JSON body then omits. The model treats `message` as holding a string content.
- `Upload.Handle`: the source would also give a 500 if the extractor threw a non-Error value (`details` would then be missing) or if pdf-parse resolved without a string `text` (`trim` would throw). The model's extractors throw only Errors with a message and resolve only with strings.
- JavaScript strings are UTF-16 code units. The model's strings are Unicode scalar values, so lone surrogates cannot be represented. No character that trim removes is affected.
- `JsString.IsSpaceSeparator` lists the Zs code points of current Unicode versions (U+0020, U+00A0, U+1680, U+2000–U+200A, U+202F, U+205F, U+3000).
