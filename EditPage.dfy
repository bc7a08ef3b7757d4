/** `EditPage`: loads the signed-in user's page into the form, saves the form
    back (update or insert), and deletes the page. */
module EditPage {
  import opened Common
  import opened PageRecord
  import AuthContext

  const LoginRequiredMessage: string := "You must be logged in to update your page"
  const DeleteFailedMessage: string := "Failed to delete your page"

  /** What the component renders. */
  datatype View =
    | Loading
    | Editor(heading: string, saveDisabled: bool, deleteOffered: bool, confirmShown: bool, error: string)

  /** The component's state cells. */
  class EditPage {
    var reason: string
    var gif: Option<File>
    var gifUrl: string
    var justification: string
    var pageId: Option<Id>
    var isDeleting: bool
    var showDeleteConfirm: bool
    var isLoading: bool
    var isSaving: bool
    var error: string

    /** The text fields of the form. */
    function FormFields(): Fields
      reads this
    {
      Fields(reason, justification, gifUrl)
    }

    constructor ()
      ensures FormFields() == Fields("", "", "") && gif == None && pageId == None
      ensures !isDeleting && !showDeleteConfirm && isLoading && !isSaving && error == ""
    {
      reason, gif, gifUrl, justification := "", None, "", "";
      pageId := None;
      isDeleting, showDeleteConfirm := false, false;
      isLoading, isSaving := true, false;
      error := "";
    }

    /** `fetchPageData`. Returns the lookup it sends (none when signed out);
        `response` is what that lookup came back with. */
    method FetchPageData(auth: AuthContext.AuthState, response: Response<Row>) returns (query: Option<PageSelect>)
      modifies this`pageId, this`reason, this`justification, this`gifUrl, this`isLoading
      ensures query.Some? <==> auth.IsAuthenticated() && auth.user.Some?
      ensures query.Some? ==> query.value == PageOfUser(auth.user.value)
      ensures !isLoading
      ensures query.Some? && response.Ok? ==>
                pageId == Some(response.data.id) && FormFields() == FieldsOf(response.data)
      ensures !(query.Some? && response.Ok?) ==>
                pageId == old(pageId) && FormFields() == old(FormFields())
    {
      if !auth.IsAuthenticated() || auth.user.None? {
        isLoading := false;
        return None;
      }
      query := Some(PageOfUser(auth.user.value));
      if response.Err? && response.error.code != NoRowsCode {
        // logged and otherwise ignored
      } else if response.Ok? {
        var data := response.data;
        pageId := Some(data.id);
        reason := OrEmpty(data.title);
        justification := OrEmpty(data.reason);
        gifUrl := OrEmpty(data.gifUrl);
      }
      isLoading := false;
    }

    /** `onDrop`; `objectUrl` is the preview URL the browser makes for the file. */
    method OnDrop(files: seq<File>, objectUrl: string)
      modifies this`gif, this`gifUrl
      ensures AcceptedGif(files).Some? ==> gif == AcceptedGif(files) && gifUrl == objectUrl
      ensures AcceptedGif(files).None? ==> gif == old(gif) && gifUrl == old(gifUrl)
    {
      var file := AcceptedGif(files);
      if file.Some? {
        gif := file;
        gifUrl := objectUrl;
      }
    }

    /** The "Remove" button under the GIF preview. */
    method RemoveGif()
      modifies this`gif, this`gifUrl
      ensures gif == None && gifUrl == ""
    {
      gif := None;
      gifUrl := "";
    }

    method ChangeReason(input: string)
      modifies this`reason
      ensures reason == input
    {
      reason := input;
    }

    method ChangeJustification(input: string)
      modifies this`justification
      ensures justification == input
    {
      justification := input;
    }

    /** The delete link and the confirmation's "Cancel" button. */
    method SetShowDeleteConfirm(show: bool)
      modifies this`showDeleteConfirm
      ensures showDeleteConfirm == show
    {
      showDeleteConfirm := show;
    }

    /** `handleSave`. `dataUrl` is what reading the dropped file gives and
        `outcome` the result of the write; returns the write it sends and
        where it navigates. */
    method HandleSave(auth: AuthContext.AuthState, dataUrl: string, outcome: WriteOutcome)
      returns (write: Option<PageWrite>, nav: Option<Target>)
      modifies this`error, this`isSaving
      ensures var check := SaveError(auth.IsAuthenticated() && auth.user.Some?, reason, LoginRequiredMessage);
              (check.Some? ==> write.None? && nav.None? && error == check.value && isSaving == old(isSaving)) &&
              (check.None? ==>
                 write == Some(WriteFor(pageId, PageDataOf(auth.user.value.id, FormFields(),
                                                           FinalGifUrl(gif, gifUrl, dataUrl)))) &&
                 !isSaving &&
                 (outcome.Written? ==> nav == Some(Path("/my-page")) && error == "") &&
                 (outcome.WriteFailed? ==> nav.None? && error == OrElse(outcome.error.message, SaveFailedMessage)))
    {
      if !auth.IsAuthenticated() || auth.user.None? {
        error := LoginRequiredMessage;
        return None, None;
      }
      if IsBlank(reason) {
        error := EmptyReasonMessage;
        return None, None;
      }
      isSaving := true;
      error := "";
      var finalGifUrl := gifUrl;
      if gif.Some? {
        finalGifUrl := dataUrl;
      }
      var data := PageData(auth.user.value.id, reason, justification, finalGifUrl);
      if pageId.Some? {
        write := Some(UpdatePage(data, pageId.value));
      } else {
        write := Some(InsertPage(data));
      }
      if outcome.WriteFailed? {
        error := OrElse(outcome.error.message, SaveFailedMessage);
        nav := None;
      } else {
        nav := Some(Path("/my-page"));
      }
      isSaving := false;
    }

    /** `handleDelete`: only with a signed-in user and a known page; the
        delete is filtered on both the page id and the user id. */
    method HandleDelete(auth: AuthContext.AuthState, outcome: WriteOutcome)
      returns (delete: Option<PageDelete>, nav: Option<Target>)
      modifies this`isDeleting, this`error, this`showDeleteConfirm
      ensures delete.Some? <==> auth.IsAuthenticated() && auth.user.Some? && pageId.Some?
      ensures delete.Some? ==> delete.value == PageDelete(pageId.value, auth.user.value.id)
      ensures delete.None? ==> nav.None? && isDeleting == old(isDeleting) && error == old(error) &&
                               showDeleteConfirm == old(showDeleteConfirm)
      ensures delete.Some? && outcome.Written? ==>
                nav == Some(Path("/")) && isDeleting && error == old(error) &&
                showDeleteConfirm == old(showDeleteConfirm)
      ensures delete.Some? && outcome.WriteFailed? ==>
                nav.None? && !isDeleting && !showDeleteConfirm &&
                error == OrElse(outcome.error.message, DeleteFailedMessage)
    {
      if !auth.IsAuthenticated() || auth.user.None? || pageId.None? {
        return None, None;
      }
      isDeleting := true;
      delete := Some(PageDelete(pageId.value, auth.user.value.id));
      if outcome.WriteFailed? {
        error := OrElse(outcome.error.message, DeleteFailedMessage);
        isDeleting := false;
        showDeleteConfirm := false;
        nav := None;
      } else {
        nav := Some(Path("/"));
      }
    }

    /** The "Back to My Page" button. */
    method GoToMyPage() returns (nav: Target)
      ensures nav == Path("/my-page")
    {
      nav := Path("/my-page");
    }

    /** The rendered view. */
    function View(): (v: View)
      reads this
      ensures v.Loading? <==> isLoading
      ensures v.Editor? ==> v.deleteOffered == pageId.Some? && (v.confirmShown ==> v.deleteOffered)
      ensures v.Editor? ==> v.confirmShown == (pageId.Some? && showDeleteConfirm)
      ensures v.Editor? ==> v.saveDisabled == isSaving && v.error == error
    {
      if isLoading then Loading
      else Editor(if pageId.Some? then "Edit Your Page" else "Create Your Page",
                  isSaving, pageId.Some?, pageId.Some? && showDeleteConfirm, error)
    }
  }

  /** Loading a page and saving it without edits updates that same page with
      the text it had, null columns written as `''`. */
  method LoadThenSaveUnchanged(user: User, row: Row, dataUrl: string) returns (write: Option<PageWrite>)
    requires row.userId == user.id
    requires exists i :: 0 <= i < |OrEmpty(row.title)| && !IsWhitespace(OrEmpty(row.title)[i])
    ensures write == Some(UpdatePage(PageData(user.id, OrEmpty(row.title), OrEmpty(row.reason),
                                              OrEmpty(row.gifUrl)), row.id))
  {
    var page := new EditPage();
    var auth := AuthContext.AuthState(Some(user), false);
    var _ := page.FetchPageData(auth, Ok(row));
    var nav;
    write, nav := page.HandleSave(auth, dataUrl, Written);
  }

  /** Without a known page, a save inserts a new one: the "no rows" answer
      fills nothing in. */
  method FirstSaveInserts(user: User, text: string, dataUrl: string) returns (write: Option<PageWrite>)
    requires exists i :: 0 <= i < |text| && !IsWhitespace(text[i])
    ensures write == Some(InsertPage(PageData(user.id, text, "", "")))
  {
    var page := new EditPage();
    var auth := AuthContext.AuthState(Some(user), false);
    var _ := page.FetchPageData(auth, Err(PgError(NoRowsCode, "no rows")));
    page.ChangeReason(text);
    var nav;
    write, nav := page.HandleSave(auth, dataUrl, Written);
  }
}
