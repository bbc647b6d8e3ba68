/** The "My Feeds" screen: the like/dislike counter update, the merge of a
    fetched page, the infinite-scroll trigger, the page-number effect and the
    upload-status banner rule. Network answers are parameters. */
module MyFeeds {
  import opened Common
  import opened FeedsContainer

  /** A full page; a shorter page means there is nothing more to fetch. */
  const PageSize: nat := 5
  /** How close (in points) to the bottom a scroll must come to load more. */
  const BottomThreshold: real := 20.0
  /** How long (in ms) after publishing the upload banner stays up. */
  const PublishBannerWindow: int := 5000

  /** The counters of one entry after the server accepted reaction `kind`.
      Anything other than 'Like' is handled as 'Dislike'. */
  function ApplyReaction(f: Feed, kind: string): (g: Feed)
    ensures g.id == f.id && g.review == f.review
    ensures kind == "Like" ==>
              g.reaction == Some("Like") && g.likes == f.likes + 1 &&
              g.dislikes == f.dislikes - (if f.reaction == Some("Dislike") then 1 else 0)
    ensures kind != "Like" ==>
              g.reaction == Some("Dislike") && g.dislikes == f.dislikes + 1 &&
              g.likes == f.likes - (if f.reaction == Some("Like") then 1 else 0)
  {
    if kind == "Like" then
      f.(dislikes := if f.reaction == Some("Dislike") then f.dislikes - 1 else f.dislikes,
         likes := f.likes + 1, reaction := Some("Like"))
    else
      f.(likes := if f.reaction == Some("Like") then f.likes - 1 else f.likes,
         dislikes := f.dislikes + 1, reaction := Some("Dislike"))
  }

  /** Switching a vote moves it: the total number of votes is unchanged. */
  lemma SwitchingKeepsTotal(f: Feed, kind: string)
    requires (kind == "Like" && f.reaction == Some("Dislike")) || (kind == "Dislike" && f.reaction == Some("Like"))
    ensures ApplyReaction(f, kind).likes + ApplyReaction(f, kind).dislikes == f.likes + f.dislikes
  {
  }

  /** Switching back undoes a switch. */
  lemma SwitchBackRestores(f: Feed)
    requires f.reaction == Some("Dislike")
    ensures ApplyReaction(ApplyReaction(f, "Like"), "Dislike") == f
  {
  }

  /** Nothing guards against repeating a reaction: a second Like counts again. */
  lemma RepeatedLikeCountsTwice(f: Feed)
    ensures ApplyReaction(ApplyReaction(f, "Like"), "Like").likes == f.likes + 2
    ensures ApplyReaction(ApplyReaction(f, "Like"), "Like").dislikes == ApplyReaction(f, "Like").dislikes
  {
  }

  /** After a Like the card's Like button is disabled and its Dislike button is not,
      once the reaction is no longer in flight. */
  lemma LikedFeedDisablesLike(f: Feed)
    ensures LikeDisabled(ApplyReaction(f, "Like").reaction, false)
    ensures !DislikeDisabled(ApplyReaction(f, "Like").reaction, false)
  {
    assert ToLower("Like") == "like";
  }

  /** The list after a successful reaction on entry `index`: only that entry changes. */
  function ReactedFeeds(feeds: seq<Feed>, index: nat, kind: string): (r: seq<Feed>)
    requires index < |feeds|
    ensures |r| == |feeds|
    ensures r[index] == ApplyReaction(feeds[index], kind)
    ensures forall j :: 0 <= j < |feeds| && j != index ==> r[j] == feeds[j]
  {
    feeds[index := ApplyReaction(feeds[index], kind)]
  }

  /** A fetched page either replaces the list or is appended after it. */
  function MergePage(prev: seq<Feed>, page: seq<Feed>, reset: bool): (r: seq<Feed>)
    ensures reset ==> r == page
    ensures !reset ==> |r| == |prev| + |page| && r[..|prev|] == prev && r[|prev|..] == page
  {
    if reset then page else prev + page
  }

  /** The scroll view's bottom edge is within 20 points of the content's end. */
  function CloseToBottom(layoutHeight: real, offsetY: real, contentHeight: real): (b: bool)
    ensures layoutHeight + offsetY >= contentHeight ==> b
    ensures b ==> contentHeight - (layoutHeight + offsetY) <= BottomThreshold
    ensures !b ==> contentHeight - (layoutHeight + offsetY) > BottomThreshold
  {
    layoutHeight + offsetY >= contentHeight - BottomThreshold
  }

  /** The upload banner's own rule: while pending, or for 5 s after a
      (non-zero) publish time. */
  function ShowStatus(isPending: bool, publishedAt: Option<int>, now: int): (b: bool)
    ensures isPending ==> b
    ensures !isPending ==> (b <==> publishedAt.Some? && publishedAt.value != 0 &&
                                    now < publishedAt.value + PublishBannerWindow)
  {
    isPending || (publishedAt.Some? && publishedAt.value != 0 && now - publishedAt.value < PublishBannerWindow)
  }

  /** The screen mounts the banner only while the upload is pending, so
      whether it is visible never depends on the publish time. */
  function BannerVisible(isPending: bool, publishedAt: Option<int>, now: int): (b: bool)
    ensures b <==> isPending
  {
    isPending && ShowStatus(isPending, publishedAt, now)
  }

  /** A finished upload is not shown even within 5 s of publishing, although
      the banner's own rule would show it. */
  lemma PublishedBannerNeverShown(publishedAt: int, now: int)
    requires publishedAt != 0 && publishedAt <= now < publishedAt + PublishBannerWindow
    ensures ShowStatus(false, Some(publishedAt), now)
    ensures !BannerVisible(false, Some(publishedAt), now)
  {
  }

  /** An error popup dispatched by the screen. */
  datatype Popup = LoginRequired | Rejected(message: Option<string>) | Failed(error: string)

  /** The server's answer to a reaction: thrown, or a response with or without `status`. */
  datatype ReactionResponse = Threw(error: string) | Responded(status: bool, errorMessage: Option<string>)

  /** A feed fetch's answer: no `data` (or the request threw), or a page of entries. */
  datatype FeedResponse = NoData | Page(items: seq<Feed>)

  /** The arguments of a `fetchTreckScapeFeeds` call. */
  datatype FetchRequest = FetchRequest(page: int, reset: bool, refresh: bool)

  class FeedScreen {
    var feeds: seq<Feed>
    var pageNumber: int
    var hasMore: bool
    var contentLoader: bool
    var isLoading: bool
    var refreshing: bool
    var reactionDisabled: bool
    var isFirstRender: bool
    var isPageRefresh: bool
    var isScrollAtTop: bool
    /** Error popups dispatched, oldest first. */
    var popups: seq<Popup>

    /** Mounting the screen over the feeds already held by the feed context. */
    constructor (feeds: seq<Feed>)
      ensures this.feeds == feeds && pageNumber == 0 && !hasMore
      ensures !contentLoader && !isLoading && !refreshing && !reactionDisabled
      ensures isFirstRender && !isPageRefresh && isScrollAtTop && popups == []
    {
      this.feeds := feeds;
      pageNumber := 0;
      hasMore := false;
      contentLoader, isLoading, refreshing, reactionDisabled := false, false, false, false;
      isFirstRender := true;
      isPageRefresh := false;
      isScrollAtTop := true;
      popups := [];
    }

    /** `handleLikeDislike(id, index, kind)` once the server has answered. */
    method HandleLikeDislike(isLogin: bool, index: int, kind: string, response: ReactionResponse)
      modifies this`feeds, this`reactionDisabled, this`popups
      ensures !isLogin ==> feeds == old(feeds) && reactionDisabled == old(reactionDisabled) &&
                           popups == old(popups) + [LoginRequired]
      ensures isLogin ==> !reactionDisabled
      ensures isLogin && response.Responded? && response.status && 0 <= index < |old(feeds)| ==>
                feeds == ReactedFeeds(old(feeds), index, kind) && popups == old(popups)
      ensures isLogin && response.Responded? && response.status && !(0 <= index < |old(feeds)|) ==>
                feeds == old(feeds) && popups == old(popups) + [Failed("TypeError")]
      ensures isLogin && response.Responded? && !response.status ==>
                feeds == old(feeds) && popups == old(popups) + [Rejected(response.errorMessage)]
      ensures isLogin && response.Threw? ==>
                feeds == old(feeds) &&
                popups == old(popups) + [Failed(if response.error == "" then "Something went wrong" else response.error)]
    {
      if !isLogin {
        popups := popups + [LoginRequired];
        return;
      }
      reactionDisabled := true;
      match response {
        case Threw(e) =>
          popups := popups + [Failed(if e == "" then "Something went wrong" else e)];
        case Responded(status, message) =>
          if status {
            if 0 <= index < |feeds| {
              feeds := ReactedFeeds(feeds, index, kind);
            } else {
              // reading a field of the missing entry throws a TypeError, caught below
              popups := popups + [Failed("TypeError")];
            }
          } else {
            popups := popups + [Rejected(message)];
          }
      }
      reactionDisabled := false;
    }

    /** The start of `fetchTreckScapeFeeds`: the bottom spinner, and the full
        loader when `loader` is false. */
    method StartFetch(loader: bool)
      modifies this`contentLoader, this`isLoading
      ensures contentLoader
      ensures isLoading == (old(isLoading) || !loader)
    {
      if !loader {
        isLoading := true;
      }
      contentLoader := true;
    }

    /** The end of `fetchTreckScapeFeeds(page, reset, ...)`. */
    method FinishFetch(response: FeedResponse, reset: bool)
      modifies this`feeds, this`hasMore, this`contentLoader, this`isLoading, this`refreshing
      ensures response.Page? ==> feeds == MergePage(old(feeds), response.items, reset) &&
                                 hasMore == (|response.items| == PageSize)
      ensures response.NoData? ==> feeds == old(feeds) && hasMore == old(hasMore)
      ensures !contentLoader && !isLoading && !refreshing
    {
      if response.Page? {
        feeds := MergePage(feeds, response.items, reset);
        hasMore := |response.items| == PageSize;
      }
      contentLoader := false;
      isLoading := false;
      refreshing := false;
    }

    /** `handleScroll`: ask for the next page when near the bottom, more pages
        exist, no fetch is running and the first render is over. */
    method HandleScroll(layoutHeight: real, offsetY: real, contentHeight: real)
      modifies this`pageNumber, this`isPageRefresh, this`isScrollAtTop
      ensures isScrollAtTop == (offsetY <= 0.0)
      ensures CloseToBottom(layoutHeight, offsetY, contentHeight) && hasMore && !contentLoader && !isFirstRender ==>
                pageNumber == old(pageNumber) + 1 && isPageRefresh
      ensures !(CloseToBottom(layoutHeight, offsetY, contentHeight) && hasMore && !contentLoader && !isFirstRender) ==>
                pageNumber == old(pageNumber) && isPageRefresh == old(isPageRefresh)
    {
      isScrollAtTop := offsetY <= 0.0;
      var isCloseToBottom := layoutHeight + offsetY >= contentHeight - BottomThreshold;
      if isCloseToBottom && hasMore && !contentLoader && !isFirstRender {
        pageNumber := pageNumber + 1;
        isPageRefresh := true;
      }
    }

    /** The effect on `pageNumber`. Its first run only ends the first render;
        later runs fetch when the page change came from scrolling.
        `refreshStored` is whether the stored `refresh` flag is set. */
    method PageNumberEffect(refreshStored: bool) returns (request: Option<FetchRequest>)
      modifies this`isFirstRender
      ensures !isFirstRender
      ensures old(isFirstRender) || !isPageRefresh ==> request.None?
      ensures !old(isFirstRender) && isPageRefresh && !refreshStored ==>
                request == Some(FetchRequest(pageNumber, true, true))
      ensures !old(isFirstRender) && isPageRefresh && refreshStored ==>
                request == if pageNumber != 0 then Some(FetchRequest(pageNumber, false, false)) else None
    {
      if isFirstRender {
        isFirstRender := false;
        return None;
      }
      request := None;
      if isPageRefresh && !isFirstRender {
        if !refreshStored {
          request := Some(FetchRequest(pageNumber, true, true));
        } else if pageNumber != 0 {
          request := Some(FetchRequest(pageNumber, false, false));
        }
      }
    }
  }

  /** After a first full page, a scroll to the bottom (with the refresh flag
      stored) fetches page 1 and appends it after the first page. */
  method ScrollLoadsNextPage(first: seq<Feed>, next: seq<Feed>) returns (feeds: seq<Feed>, pageNumber: int)
    requires |first| == PageSize
    ensures feeds == first + next && pageNumber == 1
  {
    var screen := new FeedScreen([]);
    var none := screen.PageNumberEffect(true);
    screen.StartFetch(false);
    screen.FinishFetch(Page(first), true);
    screen.HandleScroll(800.0, 1200.0, 2000.0);
    var request := screen.PageNumberEffect(true);
    screen.StartFetch(true);
    screen.FinishFetch(Page(next), request.value.reset);
    feeds, pageNumber := screen.feeds, screen.pageNumber;
  }
}
