/**
  What the `/upload` handler promises, stated over every request and every behaviour of
  the three collaborators.
 */
module UploadProperties {
  import opened Wrappers
  import opened JsString
  import opened Upload

  predicate IsExtraction(c: Call) {
    c.ParsePdf? || c.Recognize?
  }

  /** No file: a 400 "No file uploaded", and no collaborator is called. */
  lemma NoFileRejected(req: Request, env: Collaborators)
    requires req.file.None?
    ensures Handle(req, env) == Outcome(Err(400, NoFileError, None), [])
  {
  }

  /** A MIME type that is neither "application/pdf" nor "image/..." is refused before any call. */
  lemma UnsupportedRejected(f: File, env: Collaborators)
    requires |f.buffer| <= MaxFileSize
    requires f.mimetype != PdfMime && !(ImagePrefix <= f.mimetype)
    ensures Handle(Request(Some(f)), env) == Outcome(Err(400, UnsupportedError, None), [])
  {
  }

  /** Parameters after the type and upper-case letters are not tolerated by either test. */
  lemma DispatchIsExact()
    ensures Dispatch("application/pdf") == Pdf
    ensures Dispatch("image/png") == Image
    ensures Dispatch("application/pdf; charset=binary") == Unsupported
    ensures Dispatch("Application/PDF") == Unsupported
    ensures Dispatch("IMAGE/PNG") == Unsupported
    ensures Dispatch("image") == Unsupported
  {
    assert "image/png"[..6] == ImagePrefix;
    assert "application/pdf; charset=binary"[0] != ImagePrefix[0];
    assert "Application/PDF"[0] != PdfMime[0];
    assert "IMAGE/PNG"[0] != ImagePrefix[0];
  }

  /** "application/pdf" runs pdf-parse on the buffer, and OCR is never run. */
  lemma PdfSelectsParser(f: File, env: Collaborators)
    requires |f.buffer| <= MaxFileSize && f.mimetype == PdfMime
    ensures var o := Handle(Request(Some(f)), env);
      && |o.calls| >= 1 && o.calls[0] == ParsePdf(f.buffer)
      && forall c :: c in o.calls ==> !c.Recognize?
  {
  }

  /** "image/..." runs OCR in English on the buffer, and pdf-parse is never run. */
  lemma ImageSelectsOcr(f: File, env: Collaborators)
    requires |f.buffer| <= MaxFileSize && ImagePrefix <= f.mimetype
    ensures var o := Handle(Request(Some(f)), env);
      && |o.calls| >= 1 && o.calls[0] == Recognize(f.buffer, OcrLanguage)
      && forall c :: c in o.calls ==> !c.ParsePdf?
  {
    assert Dispatch(f.mimetype) == Image;
    var o := Handle(Request(Some(f)), env);
    var call := Recognize(f.buffer, OcrLanguage);
    assert ExtractorCall(Image, f) == call;
    assert o.calls == [call] || (|o.calls| == 2 && o.calls[0] == call && o.calls[1].PostChat?);
  }

  /** At most one extractor runs, it runs first, and analysis runs only after it. */
  lemma CallOrder(req: Request, env: Collaborators)
    requires Admitted(req)
    ensures var o := Handle(req, env);
      && (forall i :: 0 < i < |o.calls| ==> o.calls[i].PostChat?)
      && (|o.calls| > 0 ==> IsExtraction(o.calls[0]))
  {
  }

  /** A thrown extractor becomes a 500 carrying its message; analysis is not called. */
  lemma ExtractionFailure(f: File, env: Collaborators, message: string)
    requires |f.buffer| <= MaxFileSize
    requires Dispatch(f.mimetype) != Unsupported
    requires Extract(Dispatch(f.mimetype), f, env) == Threw(message)
    ensures Handle(Request(Some(f)), env)
      == Outcome(Err(500, ServerError, Some(message)), [ExtractorCall(Dispatch(f.mimetype), f)])
  {
  }

  /** Text that is empty once trimmed is refused with a 400 before analysis is called. */
  lemma BlankTextRejected(f: File, env: Collaborators, text: string)
    requires |f.buffer| <= MaxFileSize
    requires Dispatch(f.mimetype) != Unsupported
    requires Extract(Dispatch(f.mimetype), f, env) == Text(text)
    requires AllWs(text)
    ensures Handle(Request(Some(f)), env)
      == Outcome(Err(400, EmptyTextError, None), [ExtractorCall(Dispatch(f.mimetype), f)])
  {
  }

  /**
    Once the text passes the check the response is a success, whatever the chat service
    does: the extracted text verbatim (untrimmed), and the suggestions from the reply or
    the sentinel.
   */
  lemma ValidTextSucceeds(f: File, env: Collaborators, text: string)
    requires |f.buffer| <= MaxFileSize
    requires Dispatch(f.mimetype) != Unsupported
    requires Extract(Dispatch(f.mimetype), f, env) == Text(text)
    requires !AllWs(text)
    ensures var o := Handle(Request(Some(f)), env);
      && o.response.Ok?
      && o.response.extractedText == text
      && o.calls == [ExtractorCall(Dispatch(f.mimetype), f), PostChat(Prompt(text))]
      && (HasFirstContent(env.postChat(Prompt(text)))
          ==> o.response.suggestions == env.postChat(Prompt(text)).choices.value[0].message.value)
      && (!HasFirstContent(env.postChat(Prompt(text))) ==> o.response.suggestions == AiFailure)
  {
  }

  /**
    A success response happens exactly when a file of a supported type yields text that is
    not all white space; every other request ends in one error response.
   */
  lemma SuccessExactly(req: Request, env: Collaborators)
    requires Admitted(req)
    ensures Handle(req, env).response.Ok? <==>
      && req.file.Some?
      && Dispatch(req.file.value.mimetype) != Unsupported
      && Extract(Dispatch(req.file.value.mimetype), req.file.value, env).Text?
      && !AllWs(Extract(Dispatch(req.file.value.mimetype), req.file.value, env).text)
  {
  }

  /**
    Error statuses are 400 for the client's faults and 500 only when an extractor threw;
    nothing before extraction reaches a collaborator.
   */
  lemma ErrorTaxonomy(req: Request, env: Collaborators)
    requires Admitted(req)
    ensures var o := Handle(req, env);
      && (o.response.Err? ==> o.response.status in {400, 500} && !(exists c :: c in o.calls && c.PostChat?))
      && (HttpStatus(o.response) == 500 <==>
            && req.file.Some?
            && Dispatch(req.file.value.mimetype) != Unsupported
            && Extract(Dispatch(req.file.value.mimetype), req.file.value, env).Threw?)
      && (o.calls == [] <==> o.response.Err? && o.response.error in {NoFileError, UnsupportedError})
  {
  }
}
