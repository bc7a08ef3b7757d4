/** The route table and the `ProtectedRoute` guard that keeps the signed-in
    pages behind the authentication state. */
module App {
  import opened Common
  import AuthContext

  /** What `ProtectedRoute` renders. */
  datatype Guard = ShowLoading | RedirectTo(path: string) | RenderChildren

  /** `ProtectedRoute`: wait while the session is being determined, send an
      anonymous visitor to the registration page, otherwise show the page. */
  function ProtectedRoute(isLoading: bool, isAuthenticated: bool): (g: Guard)
    ensures g == ShowLoading <==> isLoading
    ensures g.RedirectTo? <==> !isLoading && !isAuthenticated
    ensures g.RedirectTo? ==> g.path == "/register"
    ensures g == RenderChildren <==> !isLoading && isAuthenticated
  {
    if isLoading then ShowLoading
    else if !isAuthenticated then RedirectTo("/register")
    else RenderChildren
  }

  /** The guard's decision for the provider's current state. */
  function GuardFor(auth: AuthContext.AuthState): Guard
  {
    ProtectedRoute(auth.isLoading, auth.IsAuthenticated())
  }

  /** The page components the routes render. */
  datatype Page = HomePage | RegisterPage | ReasonPage | ResultPage | MyPage | HotPage | DonatePage

  /** One segment of a route path: a literal or a `:name` parameter. */
  datatype Segment = Lit(text: string) | Param(name: string)

  datatype Route = Route(pattern: seq<Segment>, page: Page, guarded: bool)

  /** The `<Routes>` table, in source order. */
  const Routes: seq<Route> := [
    Route([], HomePage, false),
    Route([Lit("register")], RegisterPage, false),
    Route([Lit("reason")], ReasonPage, true),
    Route([Lit("result")], ResultPage, true),
    Route([Lit("my-page")], MyPage, true),
    Route([Lit("hot")], HotPage, false),
    Route([Lit("donate"), Param("id")], DonatePage, false)
  ]

  function SegmentText(s: Segment): string
  {
    match s
    case Lit(t) => t
    case Param(n) => ":" + n
  }

  function JoinSegments(p: seq<Segment>): string
  {
    if p == [] then "" else "/" + SegmentText(p[0]) + JoinSegments(p[1..])
  }

  /** A route pattern written as the source writes it, e.g. `/donate/:id`. */
  function PatternText(p: seq<Segment>): string
  {
    if p == [] then "/" else JoinSegments(p)
  }

  /** The paths of the routes wrapped in `ProtectedRoute`. */
  function GuardedPaths(): set<string>
  {
    set r | r in Routes && r.guarded :: PatternText(r.pattern)
  }

  /** The paths of the routes rendered without the guard. */
  function PublicPaths(): set<string>
  {
    set r | r in Routes && !r.guarded :: PatternText(r.pattern)
  }

  /** The patterns of the table, written out. */
  lemma PatternTexts()
    ensures PatternText(Routes[0].pattern) == "/"
    ensures PatternText(Routes[1].pattern) == "/register"
    ensures PatternText(Routes[2].pattern) == "/reason"
    ensures PatternText(Routes[3].pattern) == "/result"
    ensures PatternText(Routes[4].pattern) == "/my-page"
    ensures PatternText(Routes[5].pattern) == "/hot"
    ensures PatternText(Routes[6].pattern) == "/donate/:id"
  {
    assert JoinSegments([Param("id")]) == "/:id";
  }

  /** Exactly `/reason`, `/result` and `/my-page` are guarded; `/`,
      `/register`, `/hot` and `/donate/:id` are public. */
  lemma GuardedRoutesAreExactly()
    ensures GuardedPaths() == {"/reason", "/result", "/my-page"}
    ensures PublicPaths() == {"/", "/register", "/hot", "/donate/:id"}
  {
    PatternTexts();
    forall r | r in Routes
      ensures r == Routes[0] || r == Routes[1] || r == Routes[2] || r == Routes[3] ||
              r == Routes[4] || r == Routes[5] || r == Routes[6]
    {
      var k :| 0 <= k < |Routes| && Routes[k] == r;
    }
    assert Routes[2] in Routes && Routes[3] in Routes && Routes[4] in Routes;
    assert Routes[0] in Routes && Routes[1] in Routes && Routes[5] in Routes && Routes[6] in Routes;
  }

  /** ASCII lower-casing. A route path without `caseSensitive` is matched
      ignoring case; since every literal of the table is ASCII, folding ASCII
      letters decides exactly the same matches as the router's case-insensitive
      regular expression. */
  function LowerAscii(c: char): char
  {
    if 'A' <= c <= 'Z' then (c as int + 32) as char else c
  }

  function FoldCase(s: string): string
  {
    seq(|s|, i requires 0 <= i < |s| => LowerAscii(s[i]))
  }

  /** A URL segment fits a pattern segment: a literal up to case, a
      parameter when the segment is non-empty. */
  predicate Fits(seg: Segment, s: string)
  {
    match seg
    case Lit(t) => FoldCase(s) == FoldCase(t)
    case Param(_) => s != ""
  }

  /** Matches a URL path, given as its segments, against a route pattern and
      binds the pattern's parameters. */
  function Match(p: seq<Segment>, url: seq<string>): (m: Option<map<string, string>>)
    ensures m.Some? <==> |p| == |url| && forall i :: 0 <= i < |p| ==> Fits(p[i], url[i])
    ensures m.Some? ==> forall i :: 0 <= i < |p| && p[i].Param? ==> p[i].name in m.value
    decreases |p|
  {
    if |p| != |url| then None
    else if p == [] then Some(map[])
    else
      match Match(p[1..], url[1..])
      case None =>
        assert !Fits(p[0], url[0]) || exists i :: 1 <= i < |p| && !Fits(p[i], url[i]) by {
          if forall i :: 1 <= i < |p| ==> Fits(p[i], url[i]) {
            forall j | 0 <= j < |p| - 1 ensures Fits(p[1..][j], url[1..][j]) {
              assert Fits(p[j + 1], url[j + 1]);
            }
          }
        }
        None
      case Some(rest) =>
        assert forall i :: 1 <= i < |p| ==> Fits(p[i], url[i]) by {
          forall i | 1 <= i < |p| ensures Fits(p[i], url[i]) {
            assert p[1..][i - 1] == p[i] && url[1..][i - 1] == url[i];
          }
        }
        match p[0]
        case Lit(t) => if FoldCase(url[0]) == FoldCase(t) then Some(rest) else None
        case Param(n) => if url[0] != "" then Some(rest[n := url[0]]) else None
  }

  /** A literal first segment of a pattern must be the URL's first segment,
      up to case. */
  lemma MatchHead(p: seq<Segment>, url: seq<string>)
    requires Match(p, url).Some? && p != [] && p[0].Lit?
    ensures |url| == |p| && FoldCase(url[0]) == FoldCase(p[0].text)
  {
    assert Fits(p[0], url[0]);
  }

  /** The segment `My-Page` reaches the guarded page as `my-page` does. */
  lemma MatchIgnoresCase(auth: AuthContext.AuthState)
    ensures Navigate(["My-Page"], auth) == Navigate(["my-page"], auth)
    ensures Navigate(["My-Page"], auth) != NoMatch
  {
    assert FoldCase("My-Page") == "my-page";
    assert FoldCase("my-page") == "my-page";
    assert Match(Routes[4].pattern, ["My-Page"]).Some?;
  }

  /** Two different routes of the table differ in length or in their
      literal first segment, even ignoring case. */
  lemma PatternsDiffer(i: nat, j: nat)
    requires i < j < |Routes|
    ensures |Routes[i].pattern| != |Routes[j].pattern| ||
            (Routes[i].pattern != [] && Routes[i].pattern[0].Lit? && Routes[j].pattern[0].Lit? &&
             FoldCase(Routes[i].pattern[0].text) != FoldCase(Routes[j].pattern[0].text))
  {
    assert FoldCase("register") == "register" && FoldCase("reason") == "reason";
    assert FoldCase("result") == "result" && FoldCase("my-page") == "my-page";
    assert FoldCase("hot") == "hot" && FoldCase("donate") == "donate";
  }

  /** No URL matches two routes of the table, so the order in which the
      router tries them does not matter. */
  lemma RoutesAreDisjoint(url: seq<string>, i: nat, j: nat)
    requires i < |Routes| && j < |Routes|
    requires Match(Routes[i].pattern, url).Some? && Match(Routes[j].pattern, url).Some?
    ensures i == j
  {
    if i < j {
      PatternsDiffer(i, j);
      if |Routes[i].pattern| == |Routes[j].pattern| {
        MatchHead(Routes[i].pattern, url);
        MatchHead(Routes[j].pattern, url);
      }
    } else if j < i {
      PatternsDiffer(j, i);
      if |Routes[i].pattern| == |Routes[j].pattern| {
        MatchHead(Routes[i].pattern, url);
        MatchHead(Routes[j].pattern, url);
      }
    }
  }

  /** The first route whose pattern matches `url`, with its bindings. */
  function Resolve(url: seq<string>, from: nat := 0): (r: Option<(Route, map<string, string>)>)
    requires from <= |Routes|
    ensures r.Some? ==> exists k :: from <= k < |Routes| && Routes[k] == r.value.0 &&
                                    Match(Routes[k].pattern, url) == Some(r.value.1)
    ensures r.None? ==> forall k :: from <= k < |Routes| ==> Match(Routes[k].pattern, url).None?
    decreases |Routes| - from
  {
    if from == |Routes| then None
    else match Match(Routes[from].pattern, url)
      case Some(params) => Some((Routes[from], params))
      case None => Resolve(url, from + 1)
  }

  /** What the app shows for a URL. */
  datatype Screen =
    | NoMatch
    | Waiting
    | Redirect(to: string)
    | Show(page: Page, params: map<string, string>)

  /** The screen for `url` under the provider's state `auth`. */
  function Navigate(url: seq<string>, auth: AuthContext.AuthState): (s: Screen)
    ensures s.Show? ==> exists k :: 0 <= k < |Routes| && Routes[k].page == s.page &&
                                    Match(Routes[k].pattern, url) == Some(s.params)
  {
    match Resolve(url)
    case None => NoMatch
    case Some((route, params)) =>
      if !route.guarded then Show(route.page, params)
      else
        match GuardFor(auth)
        case ShowLoading => Waiting
        case RedirectTo(p) => Redirect(p)
        case RenderChildren => Show(route.page, params)
  }

  /** A guarded page is shown only when the session is known and signed in;
      while loading nothing but the waiting indicator is shown for it. */
  lemma GuardedPageNeedsSignIn(url: seq<string>, auth: AuthContext.AuthState, k: nat)
    requires k < |Routes| && Routes[k].guarded && Match(Routes[k].pattern, url).Some?
    ensures auth.isLoading ==> Navigate(url, auth) == Waiting
    ensures !auth.isLoading && !auth.IsAuthenticated() ==> Navigate(url, auth) == Redirect("/register")
    ensures Navigate(url, auth).Show? <==> !auth.isLoading && auth.IsAuthenticated()
  {
    var r := Resolve(url);
    var j :| 0 <= j < |Routes| && Routes[j] == r.value.0 && Match(Routes[j].pattern, url) == Some(r.value.1);
    RoutesAreDisjoint(url, j, k);
  }

  /** A public page is shown whatever the authentication state. */
  lemma PublicPageIgnoresAuth(url: seq<string>, a1: AuthContext.AuthState, a2: AuthContext.AuthState, k: nat)
    requires k < |Routes| && !Routes[k].guarded && Match(Routes[k].pattern, url).Some?
    ensures Navigate(url, a1) == Navigate(url, a2)
    ensures Navigate(url, a1).Show? && Navigate(url, a1).page == Routes[k].page
  {
    var r := Resolve(url);
    var j :| 0 <= j < |Routes| && Routes[j] == r.value.0 && Match(Routes[j].pattern, url) == Some(r.value.1);
    RoutesAreDisjoint(url, j, k);
  }

  /** `/donate/<id>` shows the donation page with `id` bound, signed in or not. */
  lemma DonateRouteBindsId(id: Id, auth: AuthContext.AuthState)
    ensures Navigate(["donate", id], auth) == Show(DonatePage, map["id" := id])
  {
    assert Match(Routes[6].pattern, ["donate", id]) == Some(map["id" := id]);
    assert forall k :: 0 <= k < 6 ==> Match(Routes[k].pattern, ["donate", id]).None?;
  }

  /** Scenario: fresh load, no session. The provider ends signed out and not
      loading, and the protected `/my-page` redirects to registration. */
  method FreshLoadWithoutSession() returns (state: AuthContext.AuthState, screen: Screen)
    ensures state == AuthContext.AuthState(None, false)
    ensures screen == Redirect("/register")
  {
    var provider := new AuthContext.AuthProvider();
    provider.Mount();
    provider.CheckUserResolved(AuthContext.SessionOk(None));
    state := provider.State();
    screen := Navigate(["my-page"], state);
  }

  /** Scenario: fresh load with a session for `u`. The protected page shows. */
  method FreshLoadWithSession(u: User) returns (state: AuthContext.AuthState, screen: Screen)
    ensures state == AuthContext.AuthState(Some(u), false)
    ensures screen == Show(MyPage, map[])
  {
    var provider := new AuthContext.AuthProvider();
    provider.Mount();
    provider.CheckUserResolved(AuthContext.SessionOk(Some(Session(u))));
    state := provider.State();
    screen := Navigate(["my-page"], state);
  }

  /** Scenario: a signed-in provider receives a sign-out notification while a
      protected page is mounted; the next evaluation of the guard redirects. */
  method LogoutNotificationWhileMounted(u: User) returns (before: Screen, after: Screen)
    ensures before == Show(ReasonPage, map[])
    ensures after == Redirect("/register")
  {
    var provider := new AuthContext.AuthProvider();
    provider.Mount();
    provider.OnAuthStateChange(Some(Session(u)));
    before := Navigate(["reason"], provider.State());
    provider.OnAuthStateChange(None);
    after := Navigate(["reason"], provider.State());
  }

  /** Scenario: the session check is outstanding when a sign-in notification
      for `u` arrives. The code has no sequence guard, so a check resolving
      afterwards with no session wins and the visitor is redirected. */
  method CheckResolvesAfterNotification(u: User) returns (state: AuthContext.AuthState, screen: Screen)
    ensures state == AuthContext.AuthState(None, false)
    ensures screen == Redirect("/register")
  {
    var provider := new AuthContext.AuthProvider();
    provider.Mount();
    provider.OnAuthStateChange(Some(Session(u)));
    provider.CheckUserResolved(AuthContext.SessionOk(None));
    state := provider.State();
    screen := Navigate(["result"], state);
  }

  /** After teardown the listener no longer changes the state. */
  method NotificationAfterUnmount(u: User) returns (state: AuthContext.AuthState)
    ensures state == AuthContext.AuthState(None, false)
  {
    var provider := new AuthContext.AuthProvider();
    provider.Mount();
    provider.CheckUserResolved(AuthContext.SessionErr("unreachable"));
    provider.Unmount();
    provider.Unmount();
    provider.OnAuthStateChange(Some(Session(u)));
    state := provider.State();
  }

  /** Sign-out: loading while the remote call is pending, then signed out at `/`. */
  method SignOutFlow(u: User, remoteError: Option<string>) returns (pending: Guard, nav: Target, state: AuthContext.AuthState)
    ensures pending == ShowLoading
    ensures nav == Path("/") && state == AuthContext.AuthState(None, false)
  {
    var provider := new AuthContext.AuthProvider();
    provider.Mount();
    provider.CheckUserResolved(AuthContext.SessionOk(Some(Session(u))));
    provider.SignOut();
    pending := GuardFor(provider.State());
    nav := provider.SignOutCompleted(remoteError);
    state := provider.State();
  }
}
