/** `MyPage`: the signed-in user's own page, with links to create or edit it
    and a confirmed delete. */
module MyPage {
  import opened Common
  import opened PageRecord
  import AuthContext

  /** What the page renders. */
  datatype View =
    | Loading
    | CreatePrompt
    | ShowPage(title: Option<string>, gif: Option<string>, reason: Option<string>,
               confirmShown: bool, deleting: bool)

  /** The component's state cells. */
  class MyPage {
    var pageData: Option<Row>
    var isLoading: bool
    var isDeleting: bool
    var showConfirm: bool

    constructor ()
      ensures pageData == None && isLoading && !isDeleting && !showConfirm
    {
      pageData := None;
      isLoading := true;
      isDeleting, showConfirm := false, false;
    }

    /** One run of the effect, with the lookup's response given. It redirects
        exactly when signed out and no longer loading; otherwise it looks up
        the user's page, if there is a user. "No rows" clears the page, any
        other error keeps what was there. */
    method Effect(auth: AuthContext.AuthState, response: Response<Row>)
      returns (nav: Option<Target>, query: Option<PageSelect>)
      modifies this`pageData, this`isLoading
      ensures nav.Some? <==> !auth.IsAuthenticated() && !old(isLoading)
      ensures nav.Some? ==> nav.value == Path("/register")
      ensures query.Some? <==> nav.None? && auth.user.Some?
      ensures query.Some? ==> query.value == PageOfUser(auth.user.value)
      ensures query.None? ==> pageData == old(pageData) && isLoading == old(isLoading)
      ensures query.Some? ==> !isLoading
      ensures query.Some? ==>
                pageData == match Classify(response)
                            case Existing(row) => Some(row)
                            case NoPage => None
                            case LookupFailed(_) => old(pageData)
    {
      if !auth.IsAuthenticated() && !isLoading {
        return Some(Path("/register")), None;
      }
      nav := None;
      if auth.user.None? {
        return nav, None;
      }
      query := Some(PageOfUser(auth.user.value));
      isLoading := true;
      if response.Err? {
        if response.error.code == NoRowsCode {
          pageData := None;
        }
      } else {
        pageData := Some(response.data);
      }
      isLoading := false;
    }

    /** `handleCreatePage` and the "Edit Page" button: both go to the form. */
    method GoToForm() returns (nav: Target)
      ensures nav == Path("/reason")
    {
      nav := Path("/reason");
    }

    /** The "Delete Page" link and the confirmation's "Cancel". */
    method SetShowConfirm(show: bool)
      modifies this`showConfirm
      ensures showConfirm == show
    {
      showConfirm := show;
    }

    /** `handleDeletePage`: only with a user and a loaded page; the delete is
        filtered on both ids. Either way it ends with the flags reset, and
        only a successful delete leaves the page. */
    method HandleDeletePage(auth: AuthContext.AuthState, outcome: WriteOutcome)
      returns (delete: Option<PageDelete>, nav: Option<Target>)
      modifies this`isDeleting, this`showConfirm
      ensures delete.Some? <==> auth.user.Some? && pageData.Some?
      ensures delete.Some? ==> delete.value == PageDelete(pageData.value.id, auth.user.value.id)
      ensures delete.Some? ==> !isDeleting && !showConfirm
      ensures delete.Some? ==> (nav.Some? <==> outcome.Written?)
      ensures nav.Some? ==> nav.value == Path("/")
      ensures delete.None? ==> nav.None? && isDeleting == old(isDeleting) && showConfirm == old(showConfirm)
    {
      if auth.user.None? || pageData.None? {
        return None, None;
      }
      isDeleting := true;
      delete := Some(PageDelete(pageData.value.id, auth.user.value.id));
      nav := if outcome.Written? then Some(Path("/")) else None;
      isDeleting := false;
      showConfirm := false;
    }

    /** The three conditional returns of the render. */
    function View(): (v: View)
      reads this
      ensures v.Loading? <==> isLoading
      ensures v.CreatePrompt? <==> !isLoading && pageData.None?
      ensures v.ShowPage? ==> v.title == pageData.value.title
      ensures v.ShowPage? ==> v.gif == Rendered(pageData.value.gifUrl) && v.reason == Rendered(pageData.value.reason)
      ensures v.ShowPage? ==> v.confirmShown == showConfirm && v.deleting == isDeleting
    {
      if isLoading then Loading
      else if pageData.None? then CreatePrompt
      else ShowPage(pageData.value.title, Rendered(pageData.value.gifUrl), Rendered(pageData.value.reason),
                    showConfirm, isDeleting)
    }
  }

  /** Outside the route guard, a signed-out visit never redirects: the page's
      own `isLoading` starts true and only a lookup clears it, so it stays on
      "Loading". */
  method SignedOutMountStaysLoading(response: Response<Row>) returns (nav: Option<Target>, v: View)
    ensures nav == None && v == Loading
  {
    var page := new MyPage();
    var query;
    nav, query := page.Effect(AuthContext.AuthState(None, false), response);
    v := page.View();
  }

  /** The component on its own, outside the route guard: a user with a page
      sees it, and a rerun of the effect once signed out redirects to the
      registration page. Inside the app the guard unmounts the page on
      sign-out first (see `App.SignOutFlow`). */
  method SignOutWhileShown(user: User, row: Row, later: Response<Row>) returns (v: View, nav: Option<Target>)
    ensures v.ShowPage? && v.title == row.title
    ensures nav == Some(Path("/register"))
  {
    var page := new MyPage();
    var first, query;
    first, query := page.Effect(AuthContext.AuthState(Some(user), false), Ok(row));
    v := page.View();
    nav, query := page.Effect(AuthContext.AuthState(None, false), later);
  }

  /** A first-time user, for whom the lookup says "no rows", is offered the
      create prompt. */
  method FirstVisitPromptsCreate(user: User) returns (v: View)
    ensures v == CreatePrompt
  {
    var page := new MyPage();
    var nav, query := page.Effect(AuthContext.AuthState(Some(user), false), Err(PgError(NoRowsCode, "no rows")));
    v := page.View();
  }
}
