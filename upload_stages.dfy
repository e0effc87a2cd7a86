/**
  The handler read as a state machine,
  Received -> Dispatched -> Extracted -> Validated -> Analyzed -> Responded,
  where every stage but the last may also exit straight to Responded with an error.
  Each step makes at most one collaborator call; running the machine from Received
  gives exactly the response and the calls of `Upload.Handle`.
 */
module UploadStages {
  import opened Wrappers
  import opened JsString
  import opened Upload

  datatype Stage =
    | Received(req: Request)
    | Dispatched(file: File, kind: Supported)
    | Extracted(text: string)
    | Validated(text: string)
    | Analyzed(text: string, suggestions: string)
    | Responded(response: Response)

  /** How many steps at most remain before the response. */
  function Rank(st: Stage): nat {
    match st
    case Received(_) => 5
    case Dispatched(_, _) => 4
    case Extracted(_) => 3
    case Validated(_) => 2
    case Analyzed(_, _) => 1
    case Responded(_) => 0
  }

  predicate StageAdmitted(st: Stage) {
    st.Received? ==> Admitted(st.req)
  }

  /** One transition, with the collaborator calls it makes. */
  function Step(st: Stage, env: Collaborators): (next: (Stage, seq<Call>))
    requires !st.Responded? && StageAdmitted(st)
    ensures Rank(next.0) < Rank(st)
    ensures |next.1| <= 1
    ensures !next.0.Responded? ==> Rank(next.0) == Rank(st) - 1
  {
    match st
    case Received(req) =>
      (match req.file
       case None => (Responded(Err(400, NoFileError, None)), [])
       case Some(f) =>
         var kind := Dispatch(f.mimetype);
         if kind == Unsupported then (Responded(Err(400, UnsupportedError, None)), [])
         else (Dispatched(f, kind), []))
    case Dispatched(f, kind) =>
      (match Extract(kind, f, env)
       case Threw(message) => (Responded(Err(500, ServerError, Some(message))), [ExtractorCall(kind, f)])
       case Text(text) => (Extracted(text), [ExtractorCall(kind, f)]))
    case Extracted(text) =>
      if Trim(text) == [] then (Responded(Err(400, EmptyTextError, None)), [])
      else (Validated(text), [])
    case Validated(text) =>
      var analysis := AnalyzeContentWithAI(text, env.postChat);
      (Analyzed(text, analysis.1), [PostChat(analysis.0)])
    case Analyzed(text, suggestions) =>
      (Responded(Ok(text, suggestions)), [])
  }

  /** Steps until Responded: the one response reached, and all calls made on the way. */
  function Run(st: Stage, env: Collaborators): (r: (Response, seq<Call>))
    requires StageAdmitted(st)
    ensures |r.1| <= Rank(st)
    decreases Rank(st)
  {
    if st.Responded? then (st.response, [])
    else
      var step := Step(st, env);
      var rest := Run(step.0, env);
      (rest.0, step.1 + rest.1)
  }

  /** From Validated on, the run is the analysis call followed by a success response. */
  lemma RunFromValidated(text: string, env: Collaborators)
    ensures var analysis := AnalyzeContentWithAI(text, env.postChat);
      Run(Validated(text), env) == (Ok(text, analysis.1), [PostChat(analysis.0)])
  {
    var analysis := AnalyzeContentWithAI(text, env.postChat);
    var analyzed := Analyzed(text, analysis.1);
    assert Step(Validated(text), env) == (analyzed, [PostChat(analysis.0)]);
    assert Run(analyzed, env) == (Ok(text, analysis.1), []);
    assert Run(Validated(text), env) == (Run(analyzed, env).0, [PostChat(analysis.0)] + Run(analyzed, env).1);
    assert [PostChat(analysis.0)] + [] == [PostChat(analysis.0)];
  }

  /** From Extracted on, blank text is refused and any other text is analysed. */
  lemma RunFromExtracted(text: string, env: Collaborators)
    ensures Trim(text) == [] ==> Run(Extracted(text), env) == (Err(400, EmptyTextError, None), [])
    ensures Trim(text) != [] ==> Run(Extracted(text), env) == Run(Validated(text), env)
  {
    var step := Step(Extracted(text), env);
    if Trim(text) == [] {
      assert step == (Responded(Err(400, EmptyTextError, None)), []);
    } else {
      assert step == (Validated(text), []);
    }
    assert Run(Extracted(text), env) == (Run(step.0, env).0, [] + Run(step.0, env).1);
    assert [] + Run(step.0, env).1 == Run(step.0, env).1;
  }

  /** From Dispatched on, the run is the extractor call followed by what its outcome leads to. */
  lemma RunFromDispatched(f: File, kind: Supported, env: Collaborators)
    ensures Extract(kind, f, env).Threw? ==>
      Run(Dispatched(f, kind), env)
        == (Err(500, ServerError, Some(Extract(kind, f, env).message)), [ExtractorCall(kind, f)])
    ensures Extract(kind, f, env).Text? ==>
      var rest := Run(Extracted(Extract(kind, f, env).text), env);
      Run(Dispatched(f, kind), env) == (rest.0, [ExtractorCall(kind, f)] + rest.1)
  {
    var step := Step(Dispatched(f, kind), env);
    var call := ExtractorCall(kind, f);
    match Extract(kind, f, env)
    case Threw(message) =>
      assert step == (Responded(Err(500, ServerError, Some(message))), [call]);
      assert Run(Dispatched(f, kind), env) == (Run(step.0, env).0, [call] + Run(step.0, env).1);
      assert [call] + [] == [call];
    case Text(text) =>
      assert step == (Extracted(text), [call]);
      assert Run(Dispatched(f, kind), env) == (Run(step.0, env).0, [call] + Run(step.0, env).1);
  }

  /** The state machine and the handler agree on every request and every collaborator. */
  lemma {:induction false} HandleIsRun(req: Request, env: Collaborators)
    requires Admitted(req)
    ensures Run(Received(req), env) == (Handle(req, env).response, Handle(req, env).calls)
  {
    if req.file.Some? {
      var f := req.file.value;
      var kind := Dispatch(f.mimetype);
      if kind != Unsupported {
        var d := Dispatched(f, kind);
        assert Step(Received(req), env) == (d, []);
        assert Run(Received(req), env) == (Run(d, env).0, [] + Run(d, env).1);
        assert [] + Run(d, env).1 == Run(d, env).1;
        RunFromDispatched(f, kind, env);
        if Extract(kind, f, env).Text? {
          var text := Extract(kind, f, env).text;
          var call := ExtractorCall(kind, f);
          RunFromExtracted(text, env);
          if Trim(text) == [] {
            assert [call] + [] == [call];
          } else {
            RunFromValidated(text, env);
            var analysis := AnalyzeContentWithAI(text, env.postChat);
            assert Handle(req, env) == Outcome(Ok(text, analysis.1), [call, PostChat(analysis.0)]);
            assert [call] + [PostChat(analysis.0)] == [call, PostChat(analysis.0)];
          }
        }
      }
    }
  }
}
