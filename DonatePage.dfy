/** `DonatePage`: the public page at `/donate/:id`. It loads the page by id,
    shows "Page Not Found" when that fails, and otherwise offers the donation
    panel behind a hover. */
module DonatePage {
  import opened Common
  import opened PageRecord
  import PaymentOptions

  const LoadFailedMessage: string := "Failed to load donation page"

  /** What the page renders. */
  datatype View =
    | Loading
    | NotFound
    | Donate(title: Option<string>, donateButton: bool, panel: Option<PaymentOptions.Props>)

  /** The component's state cells; `id` is the route parameter. */
  class DonatePage {
    const id: Option<Id>
    var pageData: Option<Row>
    var isLoading: bool
    var error: string
    var isHovered: bool
    var showPaymentOptions: bool

    /** The page is never hovered while the donation panel is open. */
    ghost predicate Valid()
      reads this
    {
      isHovered ==> !showPaymentOptions
    }

    constructor (id: Option<Id>)
      ensures Valid() && this.id == id
      ensures pageData == None && isLoading && error == "" && !isHovered && !showPaymentOptions
    {
      this.id := id;
      pageData := None;
      isLoading := true;
      error := "";
      isHovered, showPaymentOptions := false, false;
    }

    /** `fetchPageData`: returns the lookup it sends; without an id it sends
        none and changes nothing, `isLoading` included. */
    method FetchPageData(response: Response<Row>) returns (query: Option<PageSelect>)
      modifies this`pageData, this`error, this`isLoading
      ensures query.Some? <==> id.Some?
      ensures query.Some? ==> query.value == PageSelect("*", "id", id.value)
      ensures query.None? ==> pageData == old(pageData) && error == old(error) && isLoading == old(isLoading)
      ensures query.Some? ==> !isLoading
      ensures query.Some? && response.Ok? ==> pageData == Some(response.data) && error == old(error)
      ensures query.Some? && response.Err? ==>
                pageData == old(pageData) && error == OrElse(response.error.message, LoadFailedMessage)
    {
      if id.None? {
        return None;
      }
      query := Some(PageSelect("*", "id", id.value));
      if response.Err? {
        error := OrElse(response.error.message, LoadFailedMessage);
      } else {
        pageData := Some(response.data);
      }
      isLoading := false;
    }

    /** `handleHover`: ignored while the panel is open. */
    method HandleHover(hover: bool)
      requires Valid()
      modifies this`isHovered
      ensures Valid()
      ensures isHovered == if showPaymentOptions then old(isHovered) else hover
    {
      if !showPaymentOptions {
        isHovered := hover;
      }
    }

    /** `handleDonateClick`: opens the panel and drops the hover. */
    method HandleDonateClick()
      requires Valid()
      modifies this`showPaymentOptions, this`isHovered
      ensures Valid() && showPaymentOptions && !isHovered
    {
      showPaymentOptions := true;
      isHovered := false;
    }

    /** A click on the overlay around the panel closes it. */
    method CloseOverlay()
      requires Valid()
      modifies this`showPaymentOptions
      ensures Valid() && !showPaymentOptions
    {
      showPaymentOptions := false;
    }

    /** The props the panel needs to record a donation: this page's id and
        title. The page as written does not pass them (see `View`); this is
        the corrected panel. */
    function IntendedPanelProps(): (p: PaymentOptions.Props)
      reads this
      ensures p.pageId == id
    {
      PaymentOptions.Props(id, if pageData.Some? then pageData.value.title else None)
    }

    /** The three conditional returns of the render. The panel is rendered
        bare, with no props. */
    function View(): (v: View)
      reads this
      ensures v.Loading? <==> isLoading
      ensures v.NotFound? <==> !isLoading && (error != "" || pageData.None?)
      ensures v.Donate? ==> v.title == pageData.value.title
      ensures v.Donate? ==> (v.donateButton <==> isHovered && !showPaymentOptions)
      ensures v.Donate? ==> (v.panel.Some? <==> showPaymentOptions)
      ensures v.Donate? && v.panel.Some? ==> v.panel.value == PaymentOptions.BareProps()
    {
      if isLoading then Loading
      else if error != "" || pageData.None? then NotFound
      else Donate(pageData.value.title, isHovered && !showPaymentOptions,
                  if showPaymentOptions then Some(PaymentOptions.BareProps()) else None)
    }
  }

  /** Without a route id the fetch never runs, so the page stays on "Loading". */
  method NoIdStaysLoading(response: Response<Row>) returns (v: View)
    ensures v == Loading
  {
    var page := new DonatePage(None);
    var _ := page.FetchPageData(response);
    v := page.View();
  }

  /** A failed lookup shows "Page Not Found"; a found page shows its title. */
  method FetchDecidesView(id: Id, response: Response<Row>) returns (v: View)
    ensures response.Err? ==> v == NotFound
    ensures response.Ok? ==> v == Donate(response.data.title, false, None)
  {
    var page := new DonatePage(Some(id));
    var _ := page.FetchPageData(response);
    v := page.View();
  }

  /** As rendered, the opened panel has no page id, so even a valid amount
      whose insert would succeed records nothing and opens no PayPal link. */
  lemma OpenedPanelNeverDonates(page: DonatePage, amount: real, donorName: string, message: string,
                                format: real -> string)
    requires page.View().Donate? && page.View().panel.Some? && amount > 0.0
    ensures PaymentOptions.PayPalDonation(page.View().panel.value.pageId, Some(amount), donorName, message,
                                          Written, format)
            == PaymentOptions.DonationEffects(None, None, None)
  {
    PaymentOptions.BarePanelNeverDonates(amount, donorName, message, format);
  }

  /** With the route id passed to the panel, a valid amount whose insert
      succeeds records the donation against this page and opens PayPal. */
  lemma PanelWithPageIdDonates(page: DonatePage, amount: real, donorName: string, message: string,
                               format: real -> string)
    requires page.id.Some? && amount > 0.0
    ensures PaymentOptions.PayPalDonation(page.IntendedPanelProps().pageId, Some(amount), donorName, message,
                                          Written, format)
            == PaymentOptions.DonationEffects(
                 None, Some(PaymentOptions.DonationRecord(page.id.value, amount, donorName, message)),
                 Some(PaymentOptions.PayPalLink(format(amount))))
  {
  }
}
