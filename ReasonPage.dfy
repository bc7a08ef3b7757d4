/** `ReasonPage`: the create form at `/reason`. It fills itself from the
    user's existing page if there is one, saves the form (update or insert),
    and sends the user on to the result page with the saved values in the
    query string. */
module ReasonPage {
  import opened Common
  import opened PageRecord
  import AuthContext
  import ResultPage

  const LoginRequiredMessage: string := "You must be logged in to create a page"

  /** The query string the result page is opened with: `reason` and
      `justification` always, `gif` only for a non-empty GIF URL. */
  predicate IsResultQuery(q: map<string, string>, reason: string, justification: string, finalGifUrl: string)
  {
    q.Keys == (if finalGifUrl != "" then {"reason", "justification", "gif"} else {"reason", "justification"}) &&
    q["reason"] == reason && q["justification"] == justification &&
    (finalGifUrl != "" ==> q["gif"] == finalGifUrl)
  }

  /** The result page reads back exactly what the form saved; an empty GIF
      URL reads back as absent. */
  lemma ResultQueryReadsBack(q: map<string, string>, reason: string, justification: string, finalGifUrl: string)
    requires IsResultQuery(q, reason, justification, finalGifUrl)
    ensures ResultPage.ReadParams(q)
            == ResultPage.Params(reason, if finalGifUrl != "" then Some(finalGifUrl) else None, Some(justification))
  {
    if finalGifUrl == "" {
      assert "gif" !in q.Keys;
    }
  }

  /** The successive `searchParams.set` calls of `handleSubmit`. */
  method BuildResultQuery(reason: string, justification: string, finalGifUrl: string)
    returns (q: map<string, string>)
    ensures IsResultQuery(q, reason, justification, finalGifUrl)
    ensures ResultPage.ReadParams(q)
            == ResultPage.Params(reason, if finalGifUrl != "" then Some(finalGifUrl) else None, Some(justification))
  {
    q := map[];
    q := q["reason" := reason];
    q := q["justification" := justification];
    if finalGifUrl != "" {
      q := q["gif" := finalGifUrl];
    }
    ResultQueryReadsBack(q, reason, justification, finalGifUrl);
  }

  /** What the form renders. */
  datatype View =
    | Loading
    | Form(myPageLink: bool, gifPreview: Option<string>, error: Option<string>)

  /** The component's state cells. */
  class ReasonPage {
    var reason: string
    var gif: Option<File>
    var gifUrl: string
    var justification: string
    var isLoading: bool
    var existingPage: Option<Row>
    var error: string

    /** The text fields of the form. */
    function FormFields(): Fields
      reads this
    {
      Fields(reason, justification, gifUrl)
    }

    /** The id of the user's existing page, if one was found. */
    function ExistingId(): (id: Option<Id>)
      reads this
      ensures id.Some? <==> existingPage.Some?
      ensures id.Some? ==> id.value == existingPage.value.id
    {
      if existingPage.Some? then Some(existingPage.value.id) else None
    }

    constructor ()
      ensures FormFields() == Fields("", "", "") && gif == None
      ensures isLoading && existingPage == None && error == ""
    {
      reason, gif, gifUrl, justification := "", None, "", "";
      isLoading := true;
      existingPage := None;
      error := "";
    }

    /** `checkExistingPage`: skipped when signed out; a row fills the form,
        "no rows" and other errors fill nothing. */
    method CheckExistingPage(auth: AuthContext.AuthState, response: Response<Row>)
      returns (query: Option<PageSelect>)
      modifies this`existingPage, this`reason, this`justification, this`gifUrl, this`isLoading
      ensures query.Some? <==> auth.IsAuthenticated() && auth.user.Some?
      ensures query.Some? ==> query.value == PageOfUser(auth.user.value)
      ensures !isLoading
      ensures query.Some? && response.Ok? ==>
                existingPage == Some(response.data) && FormFields() == FieldsOf(response.data)
      ensures !(query.Some? && response.Ok?) ==>
                existingPage == old(existingPage) && FormFields() == old(FormFields())
    {
      if !auth.IsAuthenticated() || auth.user.None? {
        isLoading := false;
        return None;
      }
      query := Some(PageOfUser(auth.user.value));
      if response.Err? && response.error.code != NoRowsCode {
        // logged and otherwise ignored
      } else if response.Ok? {
        var data := response.data;
        existingPage := Some(data);
        reason := OrEmpty(data.title);
        justification := OrEmpty(data.reason);
        gifUrl := OrEmpty(data.gifUrl);
      }
      isLoading := false;
    }

    /** `onDrop`; `objectUrl` is the preview URL the browser makes for the file. */
    method OnDrop(files: seq<File>, objectUrl: string)
      modifies this`gif, this`gifUrl
      ensures AcceptedGif(files).Some? ==> gif == AcceptedGif(files) && gifUrl == objectUrl
      ensures AcceptedGif(files).None? ==> gif == old(gif) && gifUrl == old(gifUrl)
    {
      var file := AcceptedGif(files);
      if file.Some? {
        gif := file;
        gifUrl := objectUrl;
      }
    }

    /** The "Remove" button under the GIF preview clears both the file and its URL. */
    method RemoveGif()
      modifies this`gif, this`gifUrl
      ensures gif == None && gifUrl == ""
    {
      gif := None;
      gifUrl := "";
    }

    method ChangeReason(input: string)
      modifies this`reason
      ensures reason == input
    {
      reason := input;
    }

    method ChangeJustification(input: string)
      modifies this`justification
      ensures justification == input
    {
      justification := input;
    }

    /** `handleSubmit`. `dataUrl` is what reading the dropped file gives and
        `outcome` the result of the write; returns the write it sends and
        where it navigates. After a successful save the form stays in its
        loading state, since it leaves for the result page. */
    method HandleSubmit(auth: AuthContext.AuthState, dataUrl: string, outcome: WriteOutcome)
      returns (write: Option<PageWrite>, nav: Option<Target>)
      modifies this`error, this`isLoading
      ensures var check := SaveError(auth.IsAuthenticated() && auth.user.Some?, reason, LoginRequiredMessage);
              var finalGifUrl := FinalGifUrl(gif, gifUrl, dataUrl);
              (check.Some? ==> write.None? && nav.None? && error == check.value && isLoading == old(isLoading)) &&
              (check.None? ==>
                 write == Some(WriteFor(ExistingId(), PageDataOf(auth.user.value.id, FormFields(), finalGifUrl))) &&
                 (outcome.Written? ==>
                    isLoading && error == "" && nav.Some? && nav.value.path == "/result" &&
                    IsResultQuery(nav.value.query, reason, justification, finalGifUrl)) &&
                 (outcome.WriteFailed? ==>
                    nav.None? && !isLoading && error == OrElse(outcome.error.message, SaveFailedMessage)))
    {
      if !auth.IsAuthenticated() || auth.user.None? {
        error := LoginRequiredMessage;
        return None, None;
      }
      if IsBlank(reason) {
        error := EmptyReasonMessage;
        return None, None;
      }
      isLoading := true;
      error := "";
      var finalGifUrl := gifUrl;
      if gif.Some? {
        finalGifUrl := dataUrl;
      }
      var data := PageData(auth.user.value.id, reason, justification, finalGifUrl);
      if existingPage.Some? {
        write := Some(UpdatePage(data, existingPage.value.id));
      } else {
        write := Some(InsertPage(data));
      }
      if outcome.WriteFailed? {
        error := OrElse(outcome.error.message, SaveFailedMessage);
        isLoading := false;
        nav := None;
      } else {
        var q := BuildResultQuery(reason, justification, finalGifUrl);
        nav := Some(Target("/result", q));
      }
    }

    /** The "My Page" link, offered when the user already has a page. */
    method GoToMyPage() returns (nav: Target)
      ensures nav == Path("/my-page")
    {
      nav := Path("/my-page");
    }

    /** The rendered view. */
    function View(): (v: View)
      reads this
      ensures v.Loading? <==> isLoading
      ensures v.Form? ==> (v.myPageLink <==> existingPage.Some?)
      ensures v.Form? ==> (v.gifPreview.Some? <==> gifUrl != "")
      ensures v.Form? ==> (v.error.Some? <==> error != "")
      ensures v.Form? && v.gifPreview.Some? ==> v.gifPreview.value == gifUrl
      ensures v.Form? && v.error.Some? ==> v.error.value == error
    {
      if isLoading then Loading
      else Form(existingPage.Some?, Rendered(Some(gifUrl)), Rendered(Some(error)))
    }
  }

  /** A first save with a GIF dropped inserts the page and opens the result
      page, which reads back the reason, the justification and the GIF's data URL. */
  method FirstSubmitReachesResult(user: User, text: string, why: string, file: File, objectUrl: string,
                                  dataUrl: string) returns (write: Option<PageWrite>, shown: ResultPage.Params)
    requires exists i :: 0 <= i < |text| && !IsWhitespace(text[i])
    requires file.mimeType == GifMimeType && dataUrl != ""
    ensures write == Some(InsertPage(PageData(user.id, text, why, dataUrl)))
    ensures shown == ResultPage.Params(text, Some(dataUrl), Some(why))
  {
    var page := new ReasonPage();
    var auth := AuthContext.AuthState(Some(user), false);
    var _ := page.CheckExistingPage(auth, Err(PgError(NoRowsCode, "no rows")));
    page.ChangeReason(text);
    page.ChangeJustification(why);
    page.OnDrop([file], objectUrl);
    var nav;
    write, nav := page.HandleSubmit(auth, dataUrl, Written);
    ResultQueryReadsBack(nav.value.query, text, why, dataUrl);
    shown := ResultPage.ReadParams(nav.value.query);
  }
}
