/**
  The request router of weatherModule.js: `handleRequest` (lines 13-33),
  which splits the pathname, picks a handler by the first piece and wraps
  each handler in a catch that turns a thrown fault into a 500, and the
  exported `fetch` entry point (lines 1-7), which wraps the router in one
  more such catch. The pathname is the input; the URL it came from is not
  parsed here.
 */
module Router {
  import opened Http
  import opened Paths
  import opened Handlers

  const LandingUrl: string := "https://welcome.developers.workers.dev"

  /** Where a pathname is sent, with the pieces the handler receives. */
  datatype Route = ToWorkersAI(parts: seq<string>) | ToOpenAI(parts: seq<string>) | ToLanding

  /**
    Lines 15-31: split on '/', drop the leading piece, compare the next piece
    exactly with "workersai" and "openai" and drop it too for the handler.
   */
  function Dispatch(pathname: string): (r: Route)
    ensures r.ToWorkersAI? || r.ToOpenAI? ==> '/' in pathname
    ensures r.ToWorkersAI? || r.ToOpenAI? ==> SeparatorFree(r.parts, '/')
  {
    SplitCount(pathname, '/');
    var parts := Shift(Split(pathname, '/'));
    if |parts| > 0 && parts[0] == "workersai" then ToWorkersAI(Shift(parts))
    else if |parts| > 0 && parts[0] == "openai" then ToOpenAI(Shift(parts))
    else ToLanding
  }

  /**
    The router's result. A handler's throw is caught next to its call and
    becomes a 500 with the stack trace; the landing fetch is returned as is,
    so its failure is still thrown from here.
   */
  function HandleRequest(pathname: string, model: Inference, upstream: Upstream, landing: Landing): (x: Exchange)
    ensures x.completion.Threw? ==> Dispatch(pathname).ToLanding? && landing.LandingFailed?
    ensures Dispatch(pathname).ToLanding? ==> x.call == Some(FetchPage(LandingUrl))
  {
    match Dispatch(pathname)
    case ToWorkersAI(parts) =>
      var x := HandleWorkersAI(parts, model);
      Exchange(x.call, CatchAsCrash(x.completion))
    case ToOpenAI(parts) =>
      var x := HandleOpenAI(parts, upstream);
      Exchange(x.call, CatchAsCrash(x.completion))
    case ToLanding =>
      var completion := match landing
        case Served(page) => Returned(Relayed(page))
        case LandingFailed(message) => Threw(Raised(message));
      Exchange(Some(FetchPage(LandingUrl)), completion)
  }

  /** The exported `fetch`: whatever the router throws becomes a 500 too. */
  function Serve(pathname: string, model: Inference, upstream: Upstream, landing: Landing): (x: Exchange)
    ensures x.completion.Returned?
    ensures x.completion.response.Crash? <==>
              HandleRequest(pathname, model, upstream, landing).completion.Threw?
              || HandleRequest(pathname, model, upstream, landing).completion.response.Crash?
  {
    var x := HandleRequest(pathname, model, upstream, landing);
    Exchange(x.call, CatchAsCrash(x.completion))
  }

  /**
    The route read directly off the text after the first '/': the exact
    word, or the word followed by '/' and the rest, or else the landing page.
   */
  function RouteOfRest(rest: string): Route
  {
    if rest == "workersai" then ToWorkersAI([])
    else if |rest| >= 10 && rest[..10] == "workersai/" then ToWorkersAI(Split(rest[10..], '/'))
    else if rest == "openai" then ToOpenAI([])
    else if |rest| >= 7 && rest[..7] == "openai/" then ToOpenAI(Split(rest[7..], '/'))
    else ToLanding
  }

  /**
    Whatever comes before the first '/' is ignored, and the route is decided
    by the text after it alone, by exact, case-sensitive comparison.
   */
  lemma DispatchByRest(head: string, rest: string)
    requires '/' !in head
    ensures Dispatch(head + "/" + rest) == RouteOfRest(rest)
  {
    SplitAfterPiece(head, '/', rest);
    assert Shift(Split(head + "/" + rest, '/')) == Split(rest, '/');
    FirstPiece(rest, '/', "workersai");
    FirstPiece(rest, '/', "openai");
    assert "workersai" + "/" == "workersai/";
    assert "openai" + "/" == "openai/";
  }

  /** A pathname without any '/' goes to the landing page. */
  lemma DispatchWithoutSlash(pathname: string)
    requires '/' !in pathname
    ensures Dispatch(pathname) == ToLanding
  {
  }

  /**
    A handler's word alone hands on no pieces, and with a trailing '/' one
    empty piece. `head` is whatever precedes the first '/', which is empty
    for every pathname a URL yields.
   */
  lemma WorkersAIWord(head: string)
    requires '/' !in head
    ensures Dispatch(head + "/workersai") == ToWorkersAI([])
    ensures Dispatch(head + "/workersai/") == ToWorkersAI([""])
  {
    RouteAfter(head, "workersai");
    assert "/" + "workersai" == "/workersai";
    RouteAfter(head, "workersai/");
    assert "/" + "workersai/" == "/workersai/";
  }

  /** The same for the image-API handler's word. */
  lemma OpenAIWord(head: string)
    requires '/' !in head
    ensures Dispatch(head + "/openai") == ToOpenAI([])
    ensures Dispatch(head + "/openai/") == ToOpenAI([""])
  {
    RouteAfter(head, "openai");
    assert "/" + "openai" == "/openai";
    RouteAfter(head, "openai/");
    assert "/" + "openai/" == "/openai/";
  }

  /** Only exact, case-sensitive words select a handler: anything else, "/" included, lands. */
  lemma LandingWords(head: string)
    requires '/' !in head
    ensures Dispatch(head + "/") == ToLanding
    ensures Dispatch(head + "/foo") == ToLanding
    ensures Dispatch(head + "/OpenAI") == ToLanding
  {
    RouteAfter(head, "");
    assert "/" + "" == "/";
    RouteAfter(head, "foo");
    assert "/" + "foo" == "/foo";
    RouteAfter(head, "OpenAI");
    assert "/" + "OpenAI" == "/OpenAI";
  }

  /** A word that differs from "workersai" only in case lands. */
  lemma CaseVariantLands(head: string)
    requires '/' !in head
    ensures Dispatch(head + "/WorkersAI/x") == ToLanding
  {
    assert RouteOfRest("WorkersAI/x") == ToLanding by {
      assert "WorkersAI/x"[..10][0] != "workersai/"[0];
    }
    RouteAfter(head, "WorkersAI/x");
    assert "/" + "WorkersAI/x" == "/WorkersAI/x";
  }

  /** A word that continues past "openai" with anything but '/' lands. */
  lemma LongerWordLands(head: string)
    requires '/' !in head
    ensures Dispatch(head + "/openai.png") == ToLanding
  {
    assert RouteOfRest("openai.png") == ToLanding by {
      assert "openai.png"[..7][6] != "openai/"[6];
    }
    RouteAfter(head, "openai.png");
    assert "/" + "openai.png" == "/openai.png";
  }

  /** `DispatchByRest` for a pathname written as `head` followed by "/" and `rest` in one literal. */
  lemma RouteAfter(head: string, rest: string)
    requires '/' !in head
    ensures Dispatch(head + ("/" + rest)) == RouteOfRest(rest)
  {
    DispatchByRest(head, rest);
    assert head + "/" + rest == head + ("/" + rest);
  }

  /** "/workersai/" followed by anything hands the pieces of that remainder to the workers handler. */
  lemma DispatchWorkersAI(head: string, tail: string)
    requires '/' !in head
    ensures Dispatch(head + "/workersai/" + tail) == ToWorkersAI(Split(tail, '/'))
  {
    var pathname := head + "/workersai/" + tail;
    assert pathname == head + "/" + "workersai" + "/" + tail by {
      assert "/workersai/" == "/" + "workersai" + "/";
    }
    WordThenTail(head, "workersai", tail);
    var parts := Shift(Split(pathname, '/'));
    assert parts[0] == "workersai" && Shift(parts) == Split(tail, '/');
  }

  /** "/openai/" followed by anything hands the pieces of that remainder to the image-API handler. */
  lemma DispatchOpenAI(head: string, tail: string)
    requires '/' !in head
    ensures Dispatch(head + "/openai/" + tail) == ToOpenAI(Split(tail, '/'))
  {
    var pathname := head + "/openai/" + tail;
    assert pathname == head + "/" + "openai" + "/" + tail by {
      assert "/openai/" == "/" + "openai" + "/";
    }
    WordThenTail(head, "openai", tail);
    var parts := Shift(Split(pathname, '/'));
    assert parts[0] == "openai" && Shift(parts) == Split(tail, '/');
    assert parts[0] != "workersai" by {
      assert |"openai"| != |"workersai"|;
    }
  }

  /** The pieces after `head` of `head`, '/', a separator-free word, '/' and `tail`. */
  lemma WordThenTail(head: string, word: string, tail: string)
    requires '/' !in head && '/' !in word
    ensures Shift(Split(head + "/" + word + "/" + tail, '/')) == [word] + Split(tail, '/')
  {
    var rest := word + "/" + tail;
    SplitAfterPiece(word, '/', tail);
    SplitAfterPiece(head, '/', rest);
    assert head + "/" + word + "/" + tail == head + "/" + rest;
    assert ([head] + Split(rest, '/'))[1..] == Split(rest, '/');
  }

  /** A handler route hands on one piece fewer than there are '/' in the pathname. */
  lemma HandlerPieceCount(pathname: string)
    requires Dispatch(pathname).ToWorkersAI? || Dispatch(pathname).ToOpenAI?
    ensures |Dispatch(pathname).parts| == multiset(pathname)['/'] - 1
  {
    SplitCount(pathname, '/');
  }
}
