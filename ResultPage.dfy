/** `ResultPage`: shows the page just saved from its query parameters, lets
    the owner open the donation panel, and builds the links to share it. */
module ResultPage {
  import opened Common
  import PageRecord
  import PaymentOptions

  /** The values the page reads from its query string. */
  datatype Params = Params(reason: string, gif: Option<string>, justification: Option<string>)

  /** `searchParams.get(key)`: `null` for a missing key. */
  function Get(query: map<string, string>, key: string): (v: Option<string>)
    ensures v.Some? <==> key in query
    ensures v.Some? ==> v.value == query[key]
  {
    if key in query then Some(query[key]) else None
  }

  /** `reason` reads as `''` when missing; `gif` and `justification` stay
      null when missing. */
  function ReadParams(query: map<string, string>): (p: Params)
    ensures "reason" !in query ==> p.reason == ""
    ensures "reason" in query ==> p.reason == query["reason"]
    ensures p.gif == Get(query, "gif") && p.justification == Get(query, "justification")
  {
    Params(OrElse(OrEmpty(Get(query, "reason")), ""), Get(query, "gif"), Get(query, "justification"))
  }

  /** The parts of `window.location` the links are built from. */
  datatype Location = Location(origin: string, pathname: string, search: string, hash: string)

  /** `window.location.href`. */
  function Href(loc: Location): string
  {
    loc.origin + loc.pathname + loc.search + loc.hash
  }

  /** The public donation URL of a page. */
  function DonateLink(origin: string, pageId: Id): string
  {
    origin + "/donate/" + pageId
  }

  /** The link `handleCopyLink` copies: the page's donation URL when its id
      is known, else the current path and query on this origin. */
  function CopyLinkFor(loc: Location, pageId: Option<Id>): (link: string)
    ensures pageId.Some? ==> link == DonateLink(loc.origin, pageId.value)
    ensures pageId.None? ==> link == loc.origin + loc.pathname + loc.search
  {
    if pageId.Some? then DonateLink(loc.origin, pageId.value) else loc.origin + loc.pathname + loc.search
  }

  /** The link `handleShare` shares: the donation URL, else the full current URL. */
  function ShareLinkFor(loc: Location, pageId: Option<Id>): (link: string)
    ensures pageId.Some? ==> link == DonateLink(loc.origin, pageId.value)
    ensures pageId.None? ==> link == Href(loc)
  {
    if pageId.Some? then DonateLink(loc.origin, pageId.value) else Href(loc)
  }

  /** The share text; the trailing characters are the source file's own
      (a mis-decoded emoji), kept as they are. */
  function ShareText(reason: string): string
  {
    "Help me get money for " + reason + "! \U{F0}\U{178}\U{2122}"
  }

  /** The platforms with a share URL. */
  predicate IsSharePlatform(platform: string)
  {
    platform == "twitter" || platform == "facebook" || platform == "linkedin"
  }

  /** The `switch (platform)` of `handleShare`; `encode` stands for
      `encodeURIComponent`. Any other platform gives `''`. */
  function ShareUrl(platform: string, text: string, link: string, encode: string -> string): (url: string)
    ensures url != "" <==> IsSharePlatform(platform)
    ensures platform == "twitter" ==>
              url == "https://twitter.com/intent/tweet?text=" + encode(text) + "&url=" + encode(link)
    ensures platform == "facebook" ==> url == "https://www.facebook.com/sharer/sharer.php?u=" + encode(link)
    ensures platform == "linkedin" ==> url == "https://www.linkedin.com/sharing/share-offsite/?url=" + encode(link)
  {
    if platform == "twitter" then
      "https://twitter.com/intent/tweet?text=" + encode(text) + "&url=" + encode(link)
    else if platform == "facebook" then
      "https://www.facebook.com/sharer/sharer.php?u=" + encode(link)
    else if platform == "linkedin" then
      "https://www.linkedin.com/sharing/share-offsite/?url=" + encode(link)
    else ""
  }

  /** What the page renders: the reason, the GIF and justification card when
      either is there, the donate button, the panel and the copy tooltip. */
  datatype View =
    | Loading
    | Content(reason: string, gif: Option<string>, justification: Option<string>,
              donateButton: bool, panel: Option<PaymentOptions.Props>, copiedTooltip: bool)

  /** The component's state cells; `params` is read once from the URL. */
  class ResultPage {
    const params: Params
    var isHovered: bool
    var showPaymentOptions: bool
    var animationComplete: bool
    var showCopiedTooltip: bool
    var pageId: Option<Id>
    var isLoading: bool

    /** The page is only ever hovered once the animation is over and while
        the donation panel is closed. */
    ghost predicate Valid()
      reads this
    {
      isHovered ==> animationComplete && !showPaymentOptions
    }

    constructor (query: map<string, string>)
      ensures Valid() && params == ReadParams(query)
      ensures !isHovered && !showPaymentOptions && !animationComplete && !showCopiedTooltip
      ensures pageId == None && isLoading
    {
      params := ReadParams(query);
      isHovered, showPaymentOptions, animationComplete, showCopiedTooltip := false, false, false, false;
      pageId := None;
      isLoading := true;
    }

    /** `fetchPageData`: looks up the id of the signed-in user's page; with
        no user nothing is sent. A failure leaves `pageId` as it was. */
    method FetchPageId(user: Option<User>, response: Response<Id>) returns (query: Option<PageRecord.PageSelect>)
      requires Valid()
      modifies this`pageId, this`isLoading
      ensures Valid()
      ensures query.Some? <==> user.Some?
      ensures query.Some? ==> query.value == PageRecord.PageSelect("id", "user_id", user.value.id)
      ensures !isLoading
      ensures pageId == if query.Some? && response.Ok? then Some(response.data) else old(pageId)
    {
      if user.None? {
        isLoading := false;
        return None;
      }
      query := Some(PageRecord.PageSelect("id", "user_id", user.value.id));
      if response.Ok? {
        pageId := Some(response.data);
      }
      isLoading := false;
    }

    /** The 2.5 second timer that ends the falling-text animation. */
    method AnimationFinished()
      requires Valid()
      modifies this`animationComplete
      ensures Valid() && animationComplete
    {
      animationComplete := true;
    }

    /** `handleHover`: only after the animation and while the panel is closed. */
    method HandleHover(hover: bool)
      requires Valid()
      modifies this`isHovered
      ensures Valid()
      ensures isHovered == if animationComplete && !showPaymentOptions then hover else old(isHovered)
    {
      if animationComplete && !showPaymentOptions {
        isHovered := hover;
      }
    }

    /** `handleDonateClick`: opens the panel and drops the hover. */
    method HandleDonateClick()
      requires Valid()
      modifies this`showPaymentOptions, this`isHovered
      ensures Valid() && showPaymentOptions && !isHovered
    {
      showPaymentOptions := true;
      isHovered := false;
    }

    /** A click on the overlay around the panel closes it. */
    method CloseOverlay()
      requires Valid()
      modifies this`showPaymentOptions
      ensures Valid() && !showPaymentOptions
    {
      showPaymentOptions := false;
    }

    /** The donate button is rendered only while hovered with the panel
        closed; under the invariant that is just "hovered". */
    function DonateButtonShown(): (shown: bool)
      reads this
      ensures shown ==> isHovered && !showPaymentOptions
      ensures Valid() ==> (shown <==> isHovered)
    {
      isHovered && !showPaymentOptions
    }

    /** `handleCopyLink`: writes the link to the clipboard and shows the
        tooltip if that worked. Returns the link written. */
    method HandleCopyLink(loc: Location, clipboardOk: bool) returns (link: string)
      requires Valid()
      modifies this`showCopiedTooltip
      ensures Valid()
      ensures link == CopyLinkFor(loc, pageId)
      ensures showCopiedTooltip == (clipboardOk || old(showCopiedTooltip))
    {
      link := CopyLinkFor(loc, pageId);
      if clipboardOk {
        showCopiedTooltip := true;
      }
    }

    /** The 2 second timer that hides the tooltip again. */
    method HideCopiedTooltip()
      requires Valid()
      modifies this`showCopiedTooltip
      ensures Valid()
      ensures !showCopiedTooltip
    {
      showCopiedTooltip := false;
    }

    /** `handleShare`: the URL it opens, if any. */
    method HandleShare(platform: string, loc: Location, encode: string -> string) returns (popup: Option<string>)
      ensures popup.Some? <==> IsSharePlatform(platform)
      ensures popup.Some? ==> popup.value == ShareUrl(platform, ShareText(params.reason), ShareLinkFor(loc, pageId), encode)
    {
      var text := ShareText(params.reason);
      var link := ShareLinkFor(loc, pageId);
      var url := ShareUrl(platform, text, link, encode);
      popup := if url != "" then Some(url) else None;
    }

    /** The props the panel needs to record a donation: the page's id and
        title. The page as written does not pass them (see `View`); this is
        the corrected panel. */
    function IntendedPanelProps(): (p: PaymentOptions.Props)
      reads this
      ensures p.pageId == pageId
    {
      PaymentOptions.Props(pageId, Some(params.reason))
    }

    /** The "My Page" button. */
    method GoToMyPage() returns (nav: Target)
      ensures nav == Path("/my-page")
    {
      nav := Path("/my-page");
    }

    /** The render; the panel is rendered bare, with no props. */
    function View(): (v: View)
      reads this
      ensures v.Loading? <==> isLoading
      ensures v.Content? ==> v.reason == params.reason
      ensures v.Content? ==> (v.panel.Some? <==> showPaymentOptions)
      ensures v.Content? && v.panel.Some? ==> v.panel.value == PaymentOptions.BareProps()
      ensures v.Content? ==> (v.gif.Some? <==> params.gif.Some? && params.gif.value != "")
      ensures v.Content? ==> (v.justification.Some? <==> params.justification.Some? && params.justification.value != "")
      ensures v.Content? && v.donateButton ==> v.panel.None?
      ensures v.Content? ==> v.donateButton == DonateButtonShown() && v.copiedTooltip == showCopiedTooltip
    {
      if isLoading then Loading
      else Content(params.reason, Rendered(params.gif), Rendered(params.justification), DonateButtonShown(),
                   if showPaymentOptions then Some(PaymentOptions.BareProps()) else None, showCopiedTooltip)
    }
  }

  /** As rendered, the opened panel has no page id, so even a valid amount
      whose insert would succeed records nothing and opens no PayPal link. */
  lemma OpenedPanelNeverDonates(page: ResultPage, amount: real, donorName: string, message: string,
                                format: real -> string)
    requires page.View().Content? && page.View().panel.Some? && amount > 0.0
    ensures PaymentOptions.PayPalDonation(page.View().panel.value.pageId, Some(amount), donorName, message,
                                          Written, format)
            == PaymentOptions.DonationEffects(None, None, None)
  {
    PaymentOptions.BarePanelNeverDonates(amount, donorName, message, format);
  }

  /** With the page's id passed to the panel, a valid amount whose insert
      succeeds records the donation against that page and opens PayPal. */
  lemma PanelWithPageIdDonates(page: ResultPage, amount: real, donorName: string, message: string,
                               format: real -> string)
    requires page.pageId.Some? && amount > 0.0
    ensures PaymentOptions.PayPalDonation(page.IntendedPanelProps().pageId, Some(amount), donorName, message,
                                          Written, format)
            == PaymentOptions.DonationEffects(
                 None, Some(PaymentOptions.DonationRecord(page.pageId.value, amount, donorName, message)),
                 Some(PaymentOptions.PayPalLink(format(amount))))
  {
  }
}
