/** One feed card: the review preview and its expand toggle, the double-tap
    detector, the reaction buttons' disabled rules, the route rule for showing
    the trekscape name, and the image carousel's page index. */
module FeedsContainer {
  import opened Common

  /** The fields of a feed entry that the card and the feed screen use. */
  datatype Feed = Feed(id: int, likes: int, dislikes: int, reaction: Option<string>, review: Option<string>)

  const ReviewPreviewLength: nat := 50
  /** Milliseconds within which a second tap is a double tap. */
  const DoubleTapWindow: int := 300

  /** `item?.review || ''`. */
  function ReviewText(review: Option<string>): (t: string)
    ensures review.None? ==> t == ""
    ensures review.Some? ==> t == review.value
  {
    if review.Some? then review.value else ""
  }

  /** The text shown: the whole review when expanded, its first 50 characters otherwise. */
  function DisplayText(review: Option<string>, expanded: bool): (t: string)
    ensures expanded ==> t == ReviewText(review)
    ensures !expanded ==> t <= ReviewText(review) && |t| == if |ReviewText(review)| < ReviewPreviewLength
                                                          then |ReviewText(review)| else ReviewPreviewLength
  {
    var text := ReviewText(review);
    if expanded then text else if |text| <= ReviewPreviewLength then text else text[..ReviewPreviewLength]
  }

  /** The "...more"/"less" link appears exactly when collapsing hides something. */
  function ShowsMoreLink(review: Option<string>): (b: bool)
    ensures b <==> DisplayText(review, false) != DisplayText(review, true)
  {
    review.Some? && |review.value| > ReviewPreviewLength
  }

  /** A tap is the second of a double tap when it follows the previous one
      by more than 0 and less than 300 ms. */
  function IsDoubleTap(lastTap: int, now: int): (b: bool)
    ensures b ==> lastTap < now < lastTap + DoubleTapWindow
    ensures now <= lastTap || now >= lastTap + DoubleTapWindow ==> !b
  {
    0 < now - lastTap < DoubleTapWindow
  }

  /** ASCII part of `toLowerCase`. */
  function LowerChar(c: char): (d: char)
    ensures 'A' <= c <= 'Z' ==> 'a' <= d <= 'z' && d as int == c as int + 32
    ensures !('A' <= c <= 'Z') ==> d == c
  {
    if 'A' <= c <= 'Z' then (c as int + 32) as char else c
  }

  function ToLower(s: string): (r: string)
    ensures |r| == |s|
    ensures forall i :: 0 <= i < |s| ==> r[i] == LowerChar(s[i])
    ensures forall i :: 0 <= i < |s| ==> !('A' <= r[i] <= 'Z')
  {
    seq(|s|, i requires 0 <= i < |s| => LowerChar(s[i]))
  }

  lemma ToLowerIdempotent(s: string)
    ensures ToLower(ToLower(s)) == ToLower(s)
  {
  }

  /** The Like button is disabled by an exact 'Like' or while a reaction is in flight. */
  function LikeDisabled(reaction: Option<string>, reactionDisabled: bool): (b: bool)
    ensures reactionDisabled ==> b
    ensures reaction == Some("Like") ==> b
    ensures b && !reactionDisabled ==> LikeHighlighted(reaction)
    ensures reaction != Some("Like") && !reactionDisabled ==> !b
  {
    assert ToLower("Like") == "like";
    reaction == Some("Like") || reactionDisabled
  }

  /** The Dislike button compares the lower-cased reaction. */
  function DislikeDisabled(reaction: Option<string>, reactionDisabled: bool): (b: bool)
    ensures b <==> reactionDisabled || (reaction.Some? && SpellsIgnoringCase(reaction.value, "dislike"))
    ensures reaction == Some("Dislike") || reaction == Some("dislike") ==> b
    ensures b && !reactionDisabled ==> reaction.Some? && |reaction.value| == 7 && !LikeHighlighted(reaction)
    ensures reaction.None? && !reactionDisabled ==> !b
  {
    assert ToLower("Dislike") == "dislike";
    assert ToLower("dislike") == "dislike";
    if reaction.Some? then
      LowerMatchesSpelling(reaction.value, "dislike");
      ToLower(reaction.value) == "dislike" || reactionDisabled
    else
      reactionDisabled
  }

  /** Both buttons are highlighted by the lower-cased reaction. */
  function LikeHighlighted(reaction: Option<string>): (b: bool)
    ensures b <==> reaction.Some? && SpellsIgnoringCase(reaction.value, "like")
    ensures reaction == Some("Like") || reaction == Some("like") || reaction == Some("LIKE") ==> b
    ensures b ==> reaction.Some? && |reaction.value| == 4
  {
    assert ToLower("Like") == "like";
    assert ToLower("like") == "like";
    assert ToLower("LIKE") == "like";
    if reaction.Some? then
      LowerMatchesSpelling(reaction.value, "like");
      ToLower(reaction.value) == "like"
    else
      false
  }

  /** `s` is `word` up to the case of its ASCII letters, letter by letter. */
  predicate SpellsIgnoringCase(s: string, word: string)
  {
    |s| == |word| && forall i :: 0 <= i < |s| ==> LowerChar(s[i]) == word[i]
  }

  /** Lower-casing gives `word` exactly when `s` spells it ignoring case. */
  lemma LowerMatchesSpelling(s: string, word: string)
    ensures ToLower(s) == word <==> SpellsIgnoringCase(s, word)
  {
    if SpellsIgnoringCase(s, word) {
      assert forall i :: 0 <= i < |s| ==> ToLower(s)[i] == word[i];
    }
  }

  /** The Dislike rule ignores letter case. */
  lemma DislikeDisabledIgnoresCase(s: string, reactionDisabled: bool)
    ensures DislikeDisabled(Some(s), reactionDisabled) == DislikeDisabled(Some(ToLower(s)), reactionDisabled)
    ensures DislikeDisabled(Some("Dislike"), reactionDisabled) && DislikeDisabled(Some("DISLIKE"), reactionDisabled)
  {
    ToLowerIdempotent(s);
    assert ToLower("Dislike") == "dislike";
    assert ToLower("DISLIKE") == "dislike";
  }

  /** The Like rule does not: a reaction spelled 'like' highlights the Like
      button and leaves it enabled. */
  lemma LikeRuleIsCaseSensitive()
    ensures LikeHighlighted(Some("like")) && !LikeDisabled(Some("like"), false)
    ensures LikeHighlighted(Some("Like")) && LikeDisabled(Some("Like"), false)
  {
    assert ToLower("like") == "like";
    assert ToLower("Like") == "like";
  }

  datatype RouteParams = RouteParams(id: Option<int>, slug: Option<string>)
  datatype Route = Route(name: string, params: Option<RouteParams>)

  function ParamId(route: Route): Option<int>
  {
    if route.params.Some? then route.params.value.id else None
  }

  function ParamSlug(route: Route): Option<string>
  {
    if route.params.Some? then route.params.value.slug else None
  }

  /** The card shows the trekscape name (and the full reaction bar) on the
      user's own feed, on the current user's profile, and on a trekscape feed:
      there the slug is compared with the value it was read from. */
  function IsTrekscapeNameShow(route: Route, userId: Option<int>): (b: bool)
    ensures b <==> route.name == "MyFeeds" || route.name == "TrekscapeFeed" ||
                   (route.name == "Profile" && ParamId(route) == userId)
  {
    var slug := ParamSlug(route);
    route.name == "MyFeeds" ||
    (route.name == "Profile" && ParamId(route) == userId) ||
    (route.name == "TrekscapeFeed" && ParamSlug(route) == slug)
  }

  /** `Math.round`: the nearest integer, halves rounded up. */
  function Round(x: real): (n: int)
    ensures x - 0.5 < n as real <= x + 0.5
  {
    (x + 0.5).Floor
  }

  /** The carousel page whose left edge is nearest the scroll offset. */
  function CarouselIndex(offsetX: real, slideWidth: real): (n: int)
    requires slideWidth > 0.0
    ensures offsetX - slideWidth / 2.0 < n as real * slideWidth <= offsetX + slideWidth / 2.0
    ensures offsetX >= 0.0 ==> n >= 0
  {
    var x := offsetX / slideWidth;
    var n := Round(x);
    assert x * slideWidth == offsetX;
    ScaleInterval(x - 0.5, n as real, x + 0.5, slideWidth);
    n
  }

  /** Multiplying an interval lo < m <= hi by a positive width. */
  lemma ScaleInterval(lo: real, m: real, hi: real, w: real)
    requires w > 0.0 && lo < m <= hi
    ensures lo * w < m * w <= hi * w
  {
  }

  lemma DivideMultiple(c: real, w: real)
    requires w != 0.0
    ensures (c * w) / w == c
  {
  }

  /** `Math.round` leaves a whole number as it is. */
  lemma RoundWhole(k: int)
    ensures Round(k as real) == k
  {
  }

  /** An offset that is an exact multiple of the width selects that page. */
  lemma CarouselIndexAtPage(k: int, slideWidth: real)
    requires slideWidth > 0.0
    ensures CarouselIndex(k as real * slideWidth, slideWidth) == k
  {
    DivideMultiple(k as real, slideWidth);
    RoundWhole(k);
  }

  /** The card's own mutable state: the review toggle and the last tap time. */
  class FeedCard {
    var expanded: bool
    var lastTap: int

    constructor ()
      ensures !expanded && lastTap == 0
    {
      expanded := false;
      lastTap := 0;
    }

    method ToggleReview()
      modifies this`expanded
      ensures expanded == !old(expanded)
    {
      expanded := !expanded;
    }

    /** A tap on an image at time `now`. `like` says whether `handleLike` is
        called and `heart` whether the heart animation starts. */
    method HandleDoubleTap(now: int, reaction: Option<string>) returns (like: bool, heart: bool)
      modifies this`lastTap
      ensures lastTap == now
      ensures heart <==> IsDoubleTap(old(lastTap), now)
      ensures like <==> heart && reaction != Some("Like")
    {
      var tapGap := now - lastTap;
      like, heart := false, false;
      if tapGap < DoubleTapWindow && tapGap > 0 {
        if reaction != Some("Like") {
          like := true;
        }
        heart := true;
      }
      lastTap := now;
    }
  }

  /** Three taps 100 ms apart make two double taps, because every tap becomes
      the reference for the next. */
  method TripleTap(start: int) returns (first: bool, second: bool, third: bool)
    requires start > DoubleTapWindow
    ensures !first && second && third
  {
    var card := new FeedCard();
    var like;
    like, first := card.HandleDoubleTap(start, None);
    like, second := card.HandleDoubleTap(start + 100, None);
    like, third := card.HandleDoubleTap(start + 200, None);
  }

  /** Two toggles restore the collapsed/expanded state and the text shown. */
  method ToggleTwice(review: Option<string>) returns (before: string, after: string)
    ensures before == after && before == DisplayText(review, false)
  {
    var card := new FeedCard();
    before := DisplayText(review, card.expanded);
    card.ToggleReview();
    card.ToggleReview();
    after := DisplayText(review, card.expanded);
  }
}
