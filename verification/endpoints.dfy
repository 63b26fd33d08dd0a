/**
  What a caller of the exported `fetch` sees for each kind of pathname,
  stated from the pathname text alone. `head` is whatever precedes the
  first '/', which is empty for every pathname a URL yields.
 */
module Endpoints {
  import opened Http
  import opened Paths
  import opened Prompts
  import opened Handlers
  import opened Router

  /**
    "/workersai" and "/openai" with nothing after them throw while reading
    the missing piece, before any call; the router's catch answers with a
    500 stack trace, never with the image-API handler's "Error: " message.
   */
  lemma MissingPieceCrashes(head: string, model: Inference, upstream: Upstream, landing: Landing)
    requires '/' !in head
    ensures Serve(head + "/workersai", model, upstream, landing) == Exchange(None, Returned(Crash(MissingSegment)))
    ensures Serve(head + "/openai", model, upstream, landing) == Exchange(None, Returned(Crash(MissingSegment)))
  {
    WorkersAIWord(head);
    OpenAIWord(head);
  }

  /** "/openai/" is refused with 400 before the image API is asked. */
  lemma EmptyOpenAIPromptRefused(head: string, model: Inference, upstream: Upstream, landing: Landing)
    requires '/' !in head
    ensures Serve(head + "/openai/", model, upstream, landing) == Exchange(None, Returned(Plain(400, PromptRequired)))
  {
    OpenAIWord(head);
  }

  /** "/workersai/" has no such guard: the model is asked with the bare scene phrase. */
  lemma EmptyWorkersPromptSent(head: string, model: Inference, upstream: Upstream, landing: Landing)
    requires '/' !in head
    ensures Serve(head + "/workersai/", model, upstream, landing).call == Some(RunModel(WorkersModel, ScenePrefix))
    ensures model.Generated? ==>
              Serve(head + "/workersai/", model, upstream, landing).completion == Returned(Image(model.bytes))
  {
    WorkersAIWord(head);
    assert ScenePrefix + ReplacePlus("") == ScenePrefix;
  }

  /**
    "/workersai/<piece>": the model receives the scene phrase followed by the
    piece with '+' read as a space; its bytes come back unchanged as a PNG,
    and its failure comes back as a 500 stack trace.
   */
  lemma WorkersAIEndpoint(head: string, piece: string, model: Inference, upstream: Upstream, landing: Landing)
    requires '/' !in head && '/' !in piece
    ensures var x := Serve(head + "/workersai/" + piece, model, upstream, landing);
      && x.call == Some(RunModel(WorkersModel, ScenePrefix + ReplacePlus(piece)))
      && (model.Generated? ==> x.completion == Returned(Image(model.bytes)))
      && (model.InferenceFailed? ==> x.completion == Returned(Crash(Raised(model.message))))
  {
    DispatchWorkersAI(head, piece);
    SplitSeparatorFree(piece, '/');
  }

  /**
    "/openai/<piece>" with a non-empty piece: one POST carrying the scene
    phrase followed by the piece with '+' read as a space, answered by the
    handler's decision on the upstream outcome, never by a stack trace.
   */
  lemma OpenAIEndpoint(head: string, piece: string, model: Inference, upstream: Upstream, landing: Landing)
    requires '/' !in head && '/' !in piece && piece != ""
    ensures Serve(head + "/openai/" + piece, model, upstream, landing).call
         == Some(PostImages(ImagesEndpoint, ImagesModel, ScenePrefix + ReplacePlus(piece), ImagesCount, ImagesSize))
    ensures Serve(head + "/openai/" + piece, model, upstream, landing).completion == Returned(AnswerUpstream(upstream))
  {
    DispatchOpenAI(head, piece);
    SplitSeparatorFree(piece, '/');
    ReplacePlusEmpty(piece);
  }

  /** Only the first piece after "/openai/" matters: "/openai/a/b" behaves as "/openai/a". */
  lemma OpenAILaterPiecesIgnored(head: string, piece: string, more: string, model: Inference, upstream: Upstream, landing: Landing)
    requires '/' !in head && '/' !in piece
    ensures Serve(head + "/openai/" + piece + "/" + more, model, upstream, landing)
         == Serve(head + "/openai/" + piece, model, upstream, landing)
  {
    var tail := piece + "/" + more;
    SplitAfterPiece(piece, '/', more);
    SplitSeparatorFree(piece, '/');
    DispatchOpenAI(head, tail);
    DispatchOpenAI(head, piece);
    assert head + "/openai/" + tail == head + "/openai/" + piece + "/" + more;
  }

  /** Only the first piece after "/workersai/" matters either. */
  lemma WorkersAILaterPiecesIgnored(head: string, piece: string, more: string, model: Inference, upstream: Upstream, landing: Landing)
    requires '/' !in head && '/' !in piece
    ensures Serve(head + "/workersai/" + piece + "/" + more, model, upstream, landing)
         == Serve(head + "/workersai/" + piece, model, upstream, landing)
  {
    var tail := piece + "/" + more;
    SplitAfterPiece(piece, '/', more);
    SplitSeparatorFree(piece, '/');
    DispatchWorkersAI(head, tail);
    DispatchWorkersAI(head, piece);
    assert head + "/workersai/" + tail == head + "/workersai/" + piece + "/" + more;
  }

  /** A piece of only '+' becomes spaces, is not empty, and is sent rather than refused. */
  lemma PlusOnlyPieceSent(head: string, piece: string, model: Inference, upstream: Upstream, landing: Landing)
    requires '/' !in head && |piece| > 0
    requires forall i :: 0 <= i < |piece| ==> piece[i] == '+'
    ensures Serve(head + "/openai/" + piece, model, upstream, landing).call.Some?
    ensures Serve(head + "/openai/" + piece, model, upstream, landing).completion != Returned(Plain(400, PromptRequired))
  {
    OpenAIEndpoint(head, piece, model, upstream, landing);
    assert PromptRequired[0] != UpstreamErrorPrefix[0];
    assert PromptRequired[0] != LocalErrorPrefix[0];
  }

  /** Every pathname the router does not recognise is answered by relaying the landing page. */
  lemma LandingEndpoint(pathname: string, model: Inference, upstream: Upstream, landing: Landing)
    requires Dispatch(pathname) == ToLanding
    ensures Serve(pathname, model, upstream, landing).call == Some(FetchPage(LandingUrl))
    ensures landing.Served? ==>
              Serve(pathname, model, upstream, landing).completion == Returned(Relayed(landing.page))
    ensures landing.LandingFailed? ==>
              Serve(pathname, model, upstream, landing).completion == Returned(Crash(Raised(landing.message)))
  {
  }

  /**
    Where a 500 stack trace can come from: a missing piece after either
    handler's word, a failing model, or a failing landing-page fetch. Once
    the image-API handler has a piece, it never answers with one.
   */
  lemma CrashSources(pathname: string, model: Inference, upstream: Upstream, landing: Landing)
    ensures Serve(pathname, model, upstream, landing).completion.response.Crash? <==>
              || Dispatch(pathname) == ToWorkersAI([])
              || Dispatch(pathname) == ToOpenAI([])
              || (Dispatch(pathname).ToWorkersAI? && model.InferenceFailed?)
              || (Dispatch(pathname).ToLanding? && landing.LandingFailed?)
  {
  }

  /**
    Every response carries one of the statuses the code can produce, and no
    text response carries a null body status.
   */
  lemma ResponseStatuses(pathname: string, model: Inference, upstream: Upstream, landing: Landing)
    ensures var s := StatusOf(Serve(pathname, model, upstream, landing).completion.response);
      || s in {200, 302, 400, 500}
      || (upstream.Replied? && s == upstream.status && !IsOk(upstream.status) && !IsNullBodyStatus(upstream.status))
      || (landing.Served? && s == landing.page.status)
    ensures var r := Serve(pathname, model, upstream, landing).completion.response;
      r.Plain? ==> !IsNullBodyStatus(r.status)
  {
  }

  /** "/openai/<piece>" answered 304 gets a 500 "Error: " text from the handler's own catch. */
  lemma NotModifiedScenario(head: string, piece: string, model: Inference, upstream: Upstream, landing: Landing)
    requires '/' !in head && '/' !in piece && piece != ""
    requires upstream.Replied? && upstream.status == 304
    ensures Serve(head + "/openai/" + piece, model, upstream, landing).completion
         == Returned(Plain(500, LocalErrorPrefix + NullBodyRejection))
  {
    OpenAIEndpoint(head, piece, model, upstream, landing);
  }

  /** "/openai/sunset+over+hills" with an ok reply naming an image redirects to that image. */
  lemma RedirectScenario(head: string, piece: string, model: Inference, upstream: Upstream, landing: Landing)
    requires '/' !in head && piece == "sunset+over+hills"
    requires upstream == Replied(200, "", Url("https://img/x.png"))
    ensures Serve(head + "/openai/" + piece, model, upstream, landing).call.Some?
    ensures Serve(head + "/openai/" + piece, model, upstream, landing).completion == Returned(Redirect("https://img/x.png"))
  {
    OpenAIEndpoint(head, piece, model, upstream, landing);
  }

  /** "/openai/<piece>" answered 429 "rate limited" is relayed as 429 with the API-error prefix. */
  lemma RateLimitScenario(head: string, piece: string, model: Inference, upstream: Upstream, landing: Landing)
    requires '/' !in head && '/' !in piece && piece != ""
    requires upstream.Replied? && upstream.status == 429 && upstream.text == "rate limited"
    ensures Serve(head + "/openai/" + piece, model, upstream, landing).completion
         == Returned(Plain(429, "OpenAI API error: rate limited"))
  {
    OpenAIEndpoint(head, piece, model, upstream, landing);
    RateLimitedText();
  }

  lemma RateLimitedText()
    ensures UpstreamErrorPrefix + "rate limited" == "OpenAI API error: rate limited"
  {
  }

  /** "/workersai/forest+glade" with a model producing `bytes` returns exactly those bytes as a PNG. */
  lemma ImageScenario(head: string, piece: string, model: Inference, upstream: Upstream, landing: Landing)
    requires '/' !in head && piece == "forest+glade" && model.Generated?
    ensures Serve(head + "/workersai/" + piece, model, upstream, landing).call.Some?
    ensures Serve(head + "/workersai/" + piece, model, upstream, landing).completion == Returned(Image(model.bytes))
  {
    WorkersAIEndpoint(head, piece, model, upstream, landing);
  }

  /** The model is asked to draw "forest glade": each '+' of the piece arrives as a space. */
  lemma ForestGladePrompt(piece: string)
    requires piece == "forest+glade"
    ensures ReplacePlus(piece) == "forest glade"
  {
  }
}
