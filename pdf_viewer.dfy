/**
 * The document viewer: a page-navigation state machine (page count, current
 * page, zoom), the embedding trigger, the language selector and the rule that
 * decides which clicked links open in a new browsing context.
 */
module PdfViewer {
  import opened Wrappers
  import opened Common
  import Page

  /** Zoom is kept in tenths: 0.5, 3 and the initial 1.5, changed in steps of 0.1. */
  const MIN_SCALE: int := 5
  const MAX_SCALE: int := 30
  const INITIAL_SCALE: int := 15

  const EMBEDDING_REQUEST := Request("api/embedding", Form([]), None)

  /**
   * A bounds-checked move from `current` towards `target`: taken exactly when the
   * target names a page of the loaded document, otherwise silently ignored.
   */
  function Navigate(current: int, numPages: int, target: int): (p: int)
    ensures 1 <= target <= numPages ==> p == target
    ensures !(1 <= target <= numPages) ==> p == current
    ensures 1 <= current <= numPages ==> 1 <= p <= numPages
  {
    if 1 <= target && target <= numPages then target else current
  }

  /** Moving forward one page and back again returns to an interior page. */
  lemma NextThenPrevRestores(current: int, numPages: int)
    requires 1 <= current < numPages
    ensures var next := Navigate(current, numPages, current + 1);
            next == current + 1 && Navigate(next, numPages, next - 1) == current
  {
  }

  /** Previous on the first page and next on the last page are no-ops. */
  lemma BoundaryMovesAreNoOps(numPages: int)
    requires numPages >= 1
    ensures Navigate(1, numPages, 0) == 1
    ensures Navigate(numPages, numPages, numPages + 1) == numPages
  {
  }

  datatype Zoom = ZoomIn | ZoomOut

  /** One zoom button press: `max(0.5, s - 0.1)` or `min(3, s + 0.1)`. */
  function Zoomed(scale: int, z: Zoom): (r: int)
    ensures z.ZoomOut? ==> MIN_SCALE <= r
    ensures z.ZoomIn? ==> r <= MAX_SCALE
    ensures MIN_SCALE <= scale <= MAX_SCALE ==> MIN_SCALE <= r <= MAX_SCALE && scale - 1 <= r <= scale + 1
  {
    match z
    case ZoomOut => if scale - 1 < MIN_SCALE then MIN_SCALE else scale - 1
    case ZoomIn => if scale + 1 > MAX_SCALE then MAX_SCALE else scale + 1
  }

  function ZoomedAll(scale: int, zs: seq<Zoom>): int
    decreases |zs|
  {
    if zs == [] then scale else ZoomedAll(Zoomed(scale, zs[0]), zs[1..])
  }

  /** From any in-range scale (the initial 1.5 among them) every sequence of presses stays in [0.5, 3]. */
  lemma {:induction false} ZoomsStayInRange(scale: int, zs: seq<Zoom>)
    requires MIN_SCALE <= scale <= MAX_SCALE
    ensures MIN_SCALE <= ZoomedAll(scale, zs) <= MAX_SCALE
    decreases |zs|
  {
    if zs != [] {
      ZoomsStayInRange(Zoomed(scale, zs[0]), zs[1..]);
    }
  }

  /**
   * The capture-phase click interceptor opens a link externally exactly when the
   * nearest anchor has a non-empty href starting with "http" that is not an
   * in-page fragment of this origin; the separate "https" test adds nothing.
   */
  function OpensExternally(href: Option<string>, origin: string): (r: bool)
    ensures r <==> href.Some? && href.value != "" && StartsWith(href.value, "http")
                   && !StartsWith(href.value, origin + "/#")
  {
    href.Some? && href.value != ""
    && (StartsWith(href.value, "http") || StartsWith(href.value, "https"))
    && !StartsWith(href.value, origin + "/#")
  }

  class Viewer {
    var numPages: int
    var currentPage: int
    var scale: int
    var isEmbedding: bool
    const session: Page.Session

    constructor (session: Page.Session)
      ensures this.session == session
      ensures numPages == 0 && currentPage == 1 && scale == INITIAL_SCALE && !isEmbedding
    {
      this.session := session;
      numPages, currentPage, scale, isEmbedding := 0, 1, INITIAL_SCALE, false;
    }

    ghost predicate PageInRange()
      reads this
    {
      1 <= currentPage <= numPages
    }

    /** The renderer reports the page count of a freshly loaded document. */
    method OnDocumentLoadSuccess(count: nat)
      modifies this`numPages, this`currentPage
      ensures numPages == count && currentPage == 1
      ensures count >= 1 ==> PageInRange()
    {
      numPages := count;
      currentPage := 1;
    }

    method LastPage()
      modifies this`currentPage
      ensures currentPage == Navigate(old(currentPage), numPages, old(currentPage) - 1)
      ensures old(PageInRange()) ==> PageInRange()
    {
      var target := currentPage - 1;
      if target >= 1 && target <= numPages {
        currentPage := target;
      }
    }

    method NextPage()
      modifies this`currentPage
      ensures currentPage == Navigate(old(currentPage), numPages, old(currentPage) + 1)
      ensures old(PageInRange()) ==> PageInRange()
    {
      var target := currentPage + 1;
      if target >= 1 && target <= numPages {
        currentPage := target;
      }
    }

    /** `parsed` is `parseInt` of the form field; None stands for NaN, which fails both comparisons. */
    method GoToPage(parsed: Option<int>)
      modifies this`currentPage
      ensures parsed.Some? ==> currentPage == Navigate(old(currentPage), numPages, parsed.value)
      ensures parsed.None? ==> currentPage == old(currentPage)
      ensures old(PageInRange()) ==> PageInRange()
    {
      if parsed.Some? {
        var target := parsed.value;
        if target >= 1 && target <= numPages {
          currentPage := target;
        }
      }
    }

    /** A link inside the document: any non-zero page is taken without a bounds check. */
    method HandleItemClick(pageNumber: int)
      modifies this`currentPage
      ensures currentPage == if pageNumber != 0 then pageNumber else old(currentPage)
    {
      if pageNumber != 0 {
        currentPage := pageNumber;
      }
    }

    method ZoomOutPressed()
      modifies this`scale
      ensures scale == Zoomed(old(scale), ZoomOut) && scale >= MIN_SCALE
    {
      scale := if scale - 1 < MIN_SCALE then MIN_SCALE else scale - 1;
    }

    method ZoomInPressed()
      modifies this`scale
      ensures scale == Zoomed(old(scale), ZoomIn) && scale <= MAX_SCALE
    {
      scale := if scale + 1 > MAX_SCALE then MAX_SCALE else scale + 1;
    }

    /** The embed button is disabled while embedding, with no document, or once embedded. */
    predicate EmbedDisabled()
      reads this, session
    {
      isEmbedding || |session.config.tmpFilePath| == 0 || session.config.isEmbedded
    }

    /** The part of `handleEmbed` before its await: the guard, the busy flag and the request. */
    method BeginEmbed() returns (request: Option<Request>)
      modifies this`isEmbedding
      ensures session.config.isEmbedded || session.config.tmpFilePath == [] ==>
                request.None? && isEmbedding == old(isEmbedding)
      ensures !session.config.isEmbedded && session.config.tmpFilePath != [] ==>
                request == Some(EMBEDDING_REQUEST) && isEmbedding && EmbedDisabled()
    {
      if session.config.isEmbedded || |session.config.tmpFilePath| == 0 {
        return None;
      }
      isEmbedding := true;
      request := Some(EMBEDDING_REQUEST);
    }

    /** The part after the await: only `isEmbedded` is patched, and only on success. */
    method CompleteEmbed(snapshot: DocConfig, response: RequestMessage) returns (alert: Option<string>)
      modifies this`isEmbedding, session`config
      ensures !isEmbedding
      ensures response.state ==> session.config == snapshot.(isEmbedded := true) && alert.None?
      ensures !response.state ==> session.config == old(session.config) && alert == Some(response.message)
    {
      if response.state {
        session.config := snapshot.(isEmbedded := true);
        alert := None;
      } else {
        alert := Some(response.message);
      }
      isEmbedding := false;
    }

    /** The whole handler over the configuration it starts from and the backend's reply. */
    method HandleEmbed(response: RequestMessage) returns (request: Option<Request>, alert: Option<string>)
      modifies this`isEmbedding, session`config
      ensures old(session.config.isEmbedded) || old(session.config.tmpFilePath) == [] ==>
                request.None? && alert.None? && isEmbedding == old(isEmbedding)
                && session.config == old(session.config)
      ensures !old(session.config.isEmbedded) && old(session.config.tmpFilePath) != [] ==>
                request == Some(EMBEDDING_REQUEST) && !isEmbedding
                && session.config == (if response.state then old(session.config).(isEmbedded := true)
                                      else old(session.config))
                && alert == (if response.state then None else Some(response.message))
    {
      var snapshot := session.config;
      alert := None;
      request := BeginEmbed();
      if request.Some? {
        alert := CompleteEmbed(snapshot, response);
      }
    }

    /** Choosing a document language: an empty choice sends nothing; success patches only `lanuage`. */
    method HandleSelectLanuage(selection: string, response: RequestMessage)
      returns (request: Option<Request>, alert: Option<string>)
      modifies session`config
      ensures selection == [] ==> request.None? && alert.None? && session.config == old(session.config)
      ensures selection != [] ==>
                request == Some(Request("api/set_lanuage", Fields(map["lanuage" := StrArg(selection)]), Some(1000)))
                && session.config == (if response.state then old(session.config).(lanuage := selection)
                                      else old(session.config))
                && alert == (if response.state then None else Some(response.message))
    {
      if |selection| == 0 {
        return None, None;
      }
      request := Some(Request("api/set_lanuage", Fields(map["lanuage" := StrArg(selection)]), Some(1000)));
      if response.state {
        session.config := session.config.(lanuage := selection);
        alert := None;
      } else {
        alert := Some(response.message);
      }
    }
  }

  /** Loading a 12-page document and pressing "previous" leaves the viewer on page 1. */
  method LoadThenPreviousScenario(session: Page.Session)
  {
    var viewer := new Viewer(session);
    viewer.OnDocumentLoadSuccess(12);
    viewer.LastPage();
    assert viewer.currentPage == 1;
    viewer.NextPage();
    viewer.NextPage();
    viewer.LastPage();
    assert viewer.currentPage == 2;
  }

  /** A second press on the embed button while the first call is pending issues no request. */
  method EmbedTwiceScenario(session: Page.Session)
    requires !session.config.isEmbedded && session.config.tmpFilePath != []
  {
    var viewer := new Viewer(session);
    var first := viewer.BeginEmbed();
    assert first.Some? && viewer.EmbedDisabled();
  }
}
