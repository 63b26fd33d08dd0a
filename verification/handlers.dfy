/**
  The two backend handlers of weatherModule.js: `handleWorkersAIRequest`
  (lines 40-57) and `handleOpenAIRequest` (lines 64-98). Each receives the
  path pieces left after the router removed its own, derives the prompt
  from the first of them and makes at most one outbound call, whose outcome
  is an input.
 */
module Handlers {
  import opened Http
  import opened Prompts

  const WorkersModel: string := "@cf/stabilityai/stable-diffusion-xl-base-1.0"
  const ImagesEndpoint: string := "https://api.openai.com/v1/images/generations"
  const ImagesModel: string := "dall-e-3"
  const ImagesCount: nat := 1
  const ImagesSize: string := "1792x1024"

  const PromptRequired: string := "Prompt is required"
  const UpstreamErrorPrefix: string := "OpenAI API error: "
  const LocalErrorPrefix: string := "Error: "

  /**
    The message of the `TypeError` the runtime raises when a text body is
    given a null body status. Its wording belongs to the runtime; the model
    fixes one stand-in text so that the answer built from it can be stated.
   */
  const NullBodyRejection: string := "Response with null body status cannot have body"

  /**
    `handleWorkersAIRequest`: no guard on the prompt, so an empty piece is
    still sent; a missing piece throws before any call; the model's bytes
    are returned unchanged as a PNG; a model failure is thrown on.
   */
  function HandleWorkersAI(parts: seq<string>, model: Inference): (x: Exchange)
    ensures x.call.Some? <==> |parts| > 0
    ensures |parts| == 0 ==> x.completion == Threw(MissingSegment)
    ensures |parts| > 0 ==>
              && x.call.value.RunModel?
              && x.call.value.model == WorkersModel
              && IsBackendPrompt(parts[0], x.call.value.prompt)
    ensures |parts| > 0 && model.Generated? ==> x.completion == Returned(Image(model.bytes))
    ensures x.completion.Threw? <==> |parts| == 0 || model.InferenceFailed?
  {
    if |parts| == 0 then Exchange(None, Threw(MissingSegment))
    else
      var call := RunModel(WorkersModel, BackendPrompt(parts[0]));
      match model
      case Generated(bytes) => Exchange(Some(call), Returned(Image(bytes)))
      case InferenceFailed(message) => Exchange(Some(call), Threw(Raised(message)))
  }

  /**
    The `try` block of `handleOpenAIRequest` after its guard, given the
    upstream outcome: a non-ok reply is relayed with its status, an ok reply
    redirects to its first image URL, and everything that throws inside the
    block is answered by the local `catch` with an "Error: " message. That
    includes relaying a non-ok reply whose status is a null body status
    (304 is the only one that is not ok): the `Response` constructor rejects
    a text body with it.
   */
  function AnswerUpstream(upstream: Upstream): (r: Response)
    ensures !r.Crash? && !r.Image? && !r.Relayed?
    ensures r.Redirect? <==> upstream.Replied? && IsOk(upstream.status) && upstream.first.Url?
    ensures r.Redirect? ==> r.location == upstream.first.url
    ensures r.Plain? ==> !IsNullBodyStatus(r.status)
    ensures upstream.Replied? && !IsOk(upstream.status) && !IsNullBodyStatus(upstream.status) ==>
              StatusOf(r) == upstream.status && r.text == UpstreamErrorPrefix + upstream.text
    ensures upstream.Replied? && !IsOk(upstream.status) && IsNullBodyStatus(upstream.status) ==>
              r == Plain(500, LocalErrorPrefix + NullBodyRejection)
    ensures upstream.Unreachable? ==> r == Plain(500, LocalErrorPrefix + upstream.message)
    ensures upstream.Replied? && IsOk(upstream.status) && upstream.first.Unreadable? ==>
              r == Plain(500, LocalErrorPrefix + upstream.first.message)
  {
    match upstream
    case Unreachable(message) => Plain(500, LocalErrorPrefix + message)
    case Replied(status, text, first) =>
      if !IsOk(status) then
        if IsNullBodyStatus(status) then Plain(500, LocalErrorPrefix + NullBodyRejection)
        else Plain(status, UpstreamErrorPrefix + text)
      else
        match first
        case Url(url) => Redirect(url)
        case Unreadable(message) => Plain(500, LocalErrorPrefix + message)
  }

  /**
    `handleOpenAIRequest`: deriving the prompt happens before the `try`, so a
    missing piece throws out of the handler; an empty prompt is refused with
    400 and no call; otherwise one POST is made and its outcome answered.
   */
  function HandleOpenAI(parts: seq<string>, upstream: Upstream): (x: Exchange)
    ensures x.completion.Threw? <==> |parts| == 0
    ensures |parts| == 0 ==> x == Exchange(None, Threw(MissingSegment))
    ensures x.call.Some? <==> |parts| > 0 && parts[0] != ""
    ensures |parts| > 0 && parts[0] == "" ==> x == Exchange(None, Returned(Plain(400, PromptRequired)))
    ensures x.call.Some? ==>
              && x.call.value.PostImages?
              && x.call.value == PostImages(ImagesEndpoint, ImagesModel, x.call.value.prompt, ImagesCount, ImagesSize)
              && IsBackendPrompt(parts[0], x.call.value.prompt)
              && x.completion == Returned(AnswerUpstream(upstream))
  {
    if |parts| == 0 then Exchange(None, Threw(MissingSegment))
    else
      var prompt := ReplacePlus(parts[0]);
      ReplacePlusEmpty(parts[0]);
      if prompt == "" then Exchange(None, Returned(Plain(400, PromptRequired)))
      else
        var call := PostImages(ImagesEndpoint, ImagesModel, ScenePrefix + prompt, ImagesCount, ImagesSize);
        Exchange(Some(call), Returned(AnswerUpstream(upstream)))
  }

  /** Nothing inside the `try` produces a stack-trace body: those come only from outside it. */
  lemma OpenAINeverCrashesWithPrompt(parts: seq<string>, upstream: Upstream)
    requires |parts| > 0
    ensures HandleOpenAI(parts, upstream).completion.Returned?
    ensures !HandleOpenAI(parts, upstream).completion.response.Crash?
  {
  }

  /** A 304 reply is not relayed: building its error response throws, and the local catch answers 500. */
  lemma NotModifiedReplyRejected(text: string, first: FirstUrl)
    ensures AnswerUpstream(Replied(304, text, first)) == Plain(500, LocalErrorPrefix + NullBodyRejection)
    ensures forall s: Status :: !IsOk(s) && IsNullBodyStatus(s) ==> s == 304
  {
  }

  /** With an empty prompt the upstream outcome makes no difference: it is never asked. */
  lemma EmptyPromptIgnoresUpstream(u1: Upstream, u2: Upstream)
    ensures HandleOpenAI([""], u1) == HandleOpenAI([""], u2)
    ensures StatusOf(HandleOpenAI([""], u1).completion.response) == 400
  {
  }

  /** A piece of only '+' characters becomes spaces, passes the guard and is sent. */
  lemma PlusOnlyPromptIsSent(piece: string, upstream: Upstream)
    requires |piece| > 0
    requires forall i :: 0 <= i < |piece| ==> piece[i] == '+'
    ensures HandleOpenAI([piece], upstream).call.Some?
    ensures forall i :: |ScenePrefix| <= i < |ScenePrefix| + |piece| ==>
              HandleOpenAI([piece], upstream).call.value.prompt[i] == ' '
  {
  }
}
