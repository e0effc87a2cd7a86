/**
  The `/upload` request handler and its analysis helper `analyzeContentWithAI`.

  The three foreign calls it makes (pdf-parse, Tesseract's `recognize`, the HTTP POST to
  the chat-completion service) are the fields of `Collaborators`: total functions standing
  for whatever those libraries and that service answer. The handler returns its one
  response together with the list of collaborator calls it made, in order.
 */
module Upload {
  import opened Wrappers
  import opened JsString

  // ---------------------------------------------------------------- constants

  /** multer's `limits.fileSize`: 5 MB. */
  const MaxFileSize: nat := 5 * 1024 * 1024

  const PdfMime := "application/pdf"
  const ImagePrefix := "image/"
  /** The language Tesseract is asked to recognise. */
  const OcrLanguage := "eng"

  const NoFileError := "No file uploaded"
  const UnsupportedError := "Unsupported file type"
  const EmptyTextError := "Could not extract text"
  const ServerError := "Server processing failed"

  /** What `analyzeContentWithAI` answers whenever anything goes wrong. */
  const AiFailure := "AI suggestion failed."

  const PromptPrefix := "Analyze this social media post and give 5 short improvement suggestions:\n\n"
  const SystemPrompt :=
    "\nYou are a professional social media marketing consultant.\n\nRules:\n"
    + "- Do NOT ask questions.\n- Do NOT mention AI.\n- Do NOT add explanations.\n"
    + "- Only provide improvement suggestions.\n- Keep suggestions short and direct.\n"
    + "- Return exactly 5 bullet points.\n"

  // ---------------------------------------------------------------- data model

  /** The multer file object: its declared `mimetype` and its in-memory `buffer`. */
  datatype File = File(mimetype: string, buffer: seq<bv8>)

  /** `req.file` is absent when the multipart body carried no "file" field. */
  datatype Request = Request(file: Option<File>)

  /** What an extractor does: resolve with its `text`, or throw an error with a `message`. */
  datatype ExtractOutcome = Text(text: string) | Threw(message: string)

  /** One entry of `response.data.choices`; `message` is `choices[i].message.content` when present. */
  datatype Choice = Choice(message: Option<string>)

  /**
    What the HTTP POST does: reject (network failure, non-2xx status, missing credential),
    or resolve with a body whose `choices` array may be missing.
   */
  datatype AiOutcome = Rejected | Resolved(choices: Option<seq<Choice>>)

  /** The two chat messages sent: the fixed system message and the user message. */
  datatype ChatRequest = ChatRequest(system: string, user: string)

  datatype Collaborators = Collaborators(
    parsePdf: seq<bv8> -> ExtractOutcome,
    recognize: (seq<bv8>, string) -> ExtractOutcome,
    postChat: ChatRequest -> AiOutcome)

  /** One invocation of a collaborator, with the arguments it was given. */
  datatype Call =
    | ParsePdf(buffer: seq<bv8>)
    | Recognize(buffer: seq<bv8>, language: string)
    | PostChat(request: ChatRequest)

  /** The JSON body sent back: an error with its HTTP status, or the 200 success body. */
  datatype Response =
    | Err(status: int, error: string, details: Option<string>)
    | Ok(extractedText: string, suggestions: string)

  datatype Outcome = Outcome(response: Response, calls: seq<Call>)

  datatype Kind = Pdf | Image | Unsupported

  type Supported = k: Kind | k != Unsupported witness Pdf

  function HttpStatus(r: Response): int {
    match r
    case Err(status, _, _) => status
    case Ok(_, _) => 200
  }

  /** Requests that reach the handler: multer has already refused larger files. */
  predicate Admitted(req: Request) {
    req.file.Some? ==> |req.file.value.buffer| <= MaxFileSize
  }

  // ---------------------------------------------------------------- dispatch

  /** The extractor chosen for a declared MIME type: an exact match, then a case-sensitive prefix. */
  function Dispatch(mimetype: string): (k: Kind)
    ensures k == Pdf <==> mimetype == PdfMime
    ensures k == Image <==> ImagePrefix <= mimetype
    ensures k == Unsupported <==> mimetype != PdfMime && !(ImagePrefix <= mimetype)
  {
    PdfIsNotImage();
    if mimetype == PdfMime then Pdf
    else if StartsWith(mimetype, ImagePrefix) then Image
    else Unsupported
  }

  /** The two tests are disjoint, so the order of the branches never decides anything. */
  lemma PdfIsNotImage()
    ensures !(ImagePrefix <= PdfMime)
  {
    assert PdfMime[0] != ImagePrefix[0];
  }

  /** The call the chosen extractor receives. */
  function ExtractorCall(kind: Supported, f: File): Call {
    match kind
    case Pdf => ParsePdf(f.buffer)
    case Image => Recognize(f.buffer, OcrLanguage)
  }

  /** The answer of the extractor that `ExtractorCall(kind, f)` records, given the arguments recorded there. */
  function Extract(kind: Supported, f: File, env: Collaborators): (out: ExtractOutcome)
    ensures ExtractorCall(kind, f).ParsePdf? ==> out == env.parsePdf(ExtractorCall(kind, f).buffer)
    ensures ExtractorCall(kind, f).Recognize? ==>
      out == env.recognize(ExtractorCall(kind, f).buffer, ExtractorCall(kind, f).language)
  {
    match kind
    case Pdf => env.parsePdf(f.buffer)
    case Image => env.recognize(f.buffer, OcrLanguage)
  }

  // ---------------------------------------------------------------- analysis

  /** The chat request `analyzeContentWithAI(text)` posts. */
  function Prompt(text: string): (p: ChatRequest)
    ensures p.system == SystemPrompt
    ensures PromptPrefix <= p.user && p.user[|PromptPrefix|..] == text
  {
    ChatRequest(SystemPrompt, PromptPrefix + text)
  }

  /** The text a prompt was built from: the inverse of Prompt on its user message. */
  function PromptText(p: ChatRequest): string
    requires PromptPrefix <= p.user
  {
    p.user[|PromptPrefix|..]
  }

  lemma {:induction false} PromptRoundTrip(text: string)
    ensures PromptText(Prompt(text)) == text
    ensures forall other :: Prompt(other) == Prompt(text) ==> other == text
  {
    forall other | Prompt(other) == Prompt(text) ensures other == text {
      assert PromptText(Prompt(other)) == other;
    }
  }

  /** The first choice's content, when the reply carries one; reading it would throw otherwise. */
  predicate HasFirstContent(reply: AiOutcome) {
    reply.Resolved? && reply.choices.Some? && |reply.choices.value| > 0
    && reply.choices.value[0].message.Some?
  }

  /** `response.data.choices[0].message.content`, or the sentinel when any step of that throws. */
  function Suggestion(reply: AiOutcome): (s: string)
    ensures HasFirstContent(reply) ==> s == reply.choices.value[0].message.value
    ensures !HasFirstContent(reply) ==> s == AiFailure
  {
    match reply
    case Rejected => AiFailure
    case Resolved(None) => AiFailure
    case Resolved(Some(choices)) =>
      if |choices| == 0 then AiFailure
      else match choices[0].message
        case None => AiFailure
        case Some(content) => content
  }

  /** `analyzeContentWithAI(text)`: the one request it posts and the string it resolves with. */
  function AnalyzeContentWithAI(text: string, postChat: ChatRequest -> AiOutcome): (r: (ChatRequest, string))
    ensures r.0 == Prompt(text)
    ensures HasFirstContent(postChat(r.0)) ==> r.1 == postChat(r.0).choices.value[0].message.value
    ensures !HasFirstContent(postChat(r.0)) ==> r.1 == AiFailure
  {
    var request := Prompt(text);
    (request, Suggestion(postChat(request)))
  }

  // ---------------------------------------------------------------- the handler

  /** The `/upload` route: one response per request, with the collaborator calls made on the way. */
  function Handle(req: Request, env: Collaborators): (o: Outcome)
    requires Admitted(req)
    ensures |o.calls| <= 2
    ensures o.response.Ok? <==>
      |o.calls| == 2 && (o.calls[0].ParsePdf? || o.calls[0].Recognize?) && o.calls[1].PostChat?
  {
    match req.file
    case None => Outcome(Err(400, NoFileError, None), [])
    case Some(f) =>
      var kind := Dispatch(f.mimetype);
      if kind == Unsupported then Outcome(Err(400, UnsupportedError, None), [])
      else
        var call := ExtractorCall(kind, f);
        match Extract(kind, f, env)
        case Threw(message) => Outcome(Err(500, ServerError, Some(message)), [call])
        case Text(text) =>
          if Trim(text) == [] then Outcome(Err(400, EmptyTextError, None), [call])
          else
            var (request, suggestions) := AnalyzeContentWithAI(text, env.postChat);
            Outcome(Ok(text, suggestions), [call, PostChat(request)])
  }
}
