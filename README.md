# Begging pages: a Dafny model of the app's state and decisions

This project models "begging", a small React app backed by Supabase. A
signed-in user writes one "begging page": what they beg for, a justification
and a GIF. The page is shared as `/donate/<id>`. The donation form is meant to
record a donation row and then open a PayPal.me link; as both pages render
it, with no page id, it does neither (see "## Findings").

The model covers:

- the authentication provider;
- the route table and its sign-in guard;
- the rotating suggestion hook;
- the donation form;
- the four page components that read and write the `begging_pages` table:
  the create form, the edit form, "my page" and the donate page;
- the result page.

Every Supabase call is a parameter. A read is given as
`Response<T> = Ok(data) | Err(PgError(code, message))`, with `PGRST116`
meaning "no rows". A write is given as `Written | WriteFailed(error)`. A
method returns the request it would send, and navigation comes back as an
emitted `Target(path, query)`.

Each awaited completion is one atomic event. Where a component updates React
state cells step by step, it becomes a Dafny `class` with those fields, and
each handler becomes a method with a field-precise `modifies` frame. Pure
decisions are functions with lemmas.

Modules:

- `Common`: `Option`, ids, users, the Supabase result shapes, and the
  JavaScript helpers `||`, `?? ''` and `trim()`.
- `AuthContext`: the provider's state cells, a pure `Step`/`Replay` over
  events, and the `AuthProvider` class.
- `App`: `ProtectedRoute`, the route table, URL matching, and end-to-end
  scenarios that combine the provider with the guard.
- `AnimatedSuggestions`: the six suggestions and the cyclic index.
- `PaymentOptions`: the donation form.
- `PageRecord`: the `begging_pages` row, the form fields, the record written
  back, and the save checks. Both forms share it.
- `EditPage`, `ReasonPage`, `MyPage`, `DonatePage`, `ResultPage`: one class
  per component.

## Model

| member | source | states |
|---|---|---|
| AuthContext.AuthProvider.constructor | src/components/AuthContext.tsx:27-28 | the provider starts with `user = null` and `isLoading = true`, so it is not authenticated, and no listener is registered yet |
| AuthContext.AuthProvider.IsAuthenticated | src/components/AuthContext.tsx:84 | `isAuthenticated` holds exactly when `user` is not null, in every state |
| AuthContext.AuthProvider.Mount | src/components/AuthContext.tsx:31-53 | the mount effect sets `isLoading` (the check has started) and registers the auth listener |
| AuthContext.AuthProvider.CheckUserResolved | src/components/AuthContext.tsx:33-47 | an error or a missing session leaves `user = null`, a present session sets the session's user, and `isLoading` is false in every branch |
| AuthContext.AuthProvider.OnAuthStateChange | src/components/AuthContext.tsx:53-61 | a notification sets `user` to the session's user or null and sets `isLoading = false`, whatever the prior state; with no registered listener nothing changes |
| AuthContext.AuthProvider.SignOut | src/components/AuthContext.tsx:70-71 | sign-out first sets `isLoading = true` while the remote call is pending |
| AuthContext.AuthProvider.SignOutCompleted | src/components/AuthContext.tsx:72-76 | after the remote call, and whatever it reported, `user = null`, `isLoading = false`, and the app navigates to `/` |
| AuthContext.AuthProvider.Unmount | src/components/AuthContext.tsx:65-67 | teardown unsubscribes the listener; doing it twice changes nothing more |
| AuthContext.Step | src/components/AuthContext.tsx:31-76 | each event's new `user` and `isLoading`: a check or sign-out start sets loading and keeps the user; a resolved check, a notification or a finished sign-out sets the user it carries and clears loading |
| AuthContext.StepUser | src/components/AuthContext.tsx:33-76 | each event overwrites `user` exactly when it writes one, and leaves `isLoading` true exactly when it starts a remote call |
| AuthContext.LastWriterWins | src/components/AuthContext.tsx:35-61 | there is no sequencing between the session check and the notifications; after any event sequence, `user` is what the last user-writing event wrote |
| AuthContext.LoadingFollowsLastEvent | src/components/AuthContext.tsx:34-74 | after a non-empty event sequence, `isLoading` holds exactly when the last event began a check or a sign-out |
| AuthContext.CompletionForgetsPriorState | src/components/AuthContext.tsx:37-74 | a completion event gives the same state from any prior state, and that state is not loading |
| AuthContext.SignOutIgnoresRemote | src/components/AuthContext.tsx:72-74 | the settled sign-out ends signed out and not loading, whatever the remote result |
| AuthContext.StaleCheckOverwritesNotification | src/components/AuthContext.tsx:35-61 | a session check that resolves after a newer sign-in notification overwrites it with null; in the other order the sign-in stands |
| App.ProtectedRoute | src/App.tsx:19-31 | loading renders the indicator whatever `isAuthenticated` is; not loading and not authenticated redirects to `/register`; the children render exactly when not loading and authenticated |
| App.PatternTexts | src/App.tsx:42-66 | the seven routes of the table have the paths `/`, `/register`, `/reason`, `/result`, `/my-page`, `/hot`, `/donate/:id`, in source order |
| App.GuardedRoutesAreExactly | src/App.tsx:42-66 | exactly `/reason`, `/result` and `/my-page` are wrapped in the guard; `/`, `/register`, `/hot` and `/donate/:id` are public |
| App.RoutesAreDisjoint | src/App.tsx:41-67 | no URL matches two routes of the table |
| App.Match | src/App.tsx:41-67 | a URL matches a pattern exactly when it has as many segments and each literal equals its segment ignoring case, each parameter's segment being non-empty; every parameter is bound |
| App.MatchIgnoresCase | src/App.tsx:58 | `/My-Page` reaches the same screen as `/my-page` |
| App.Resolve | src/App.tsx:41-67 | the router picks a route whose pattern matches the URL, and finds none only when no pattern matches |
| App.Navigate | src/App.tsx:41-67 | a shown page is the page of a route matching the URL, with that match's bindings |
| App.GuardedPageNeedsSignIn | src/App.tsx:19-62 | a guarded page shows the waiting indicator while loading, redirects to `/register` when signed out, and is shown exactly when signed in and not loading |
| App.PublicPageIgnoresAuth | src/App.tsx:42-66 | a public page is shown whatever the authentication state |
| App.DonateRouteBindsId | src/App.tsx:66 | `/donate/<id>` shows the donation page with `id` bound, signed in or not |
| App.FreshLoadWithoutSession | src/components/AuthContext.tsx:31-50 | a fresh load with no session ends `{null, false}`, and `/my-page` redirects to `/register` |
| App.FreshLoadWithSession | src/components/AuthContext.tsx:31-50 | a fresh load with a session ends signed in as its user, and `/my-page` is shown |
| App.LogoutNotificationWhileMounted | src/components/AuthContext.tsx:53-61 | a sign-out notification while `/reason` is shown makes the guard redirect it |
| App.CheckResolvesAfterNotification | src/components/AuthContext.tsx:35-61 | a check resolving with no session after a sign-in notification leaves the visitor signed out and redirected |
| App.NotificationAfterUnmount | src/components/AuthContext.tsx:65-67 | after teardown, a notification no longer changes the state |
| App.SignOutFlow | src/components/AuthContext.tsx:70-76 | during sign-out the guard shows the waiting indicator; afterwards the app is at `/` and signed out |
| AnimatedSuggestions.Next | src/hooks/useAnimatedSuggestions.ts:16 | a step from any index the hook can hold lands in [0, 6): it moves one on, wrapping from 5 to 0 |
| AnimatedSuggestions.Shown | src/hooks/useAnimatedSuggestions.ts:34 | the hook returns null exactly at index -1, and otherwise an element of the suggestions |
| AnimatedSuggestions.AdvanceFromShown | src/hooks/useAnimatedSuggestions.ts:16 | `n` steps from a shown index land on `(index + n) mod 6` |
| AnimatedSuggestions.AdvanceFromUnset | src/hooks/useAnimatedSuggestions.ts:13-16 | the `n`-th step from -1 lands on `(n - 1) mod 6` |
| AnimatedSuggestions.SixTicksCycle | src/hooks/useAnimatedSuggestions.ts:3-16 | six steps from a non-negative index return to it |
| AnimatedSuggestions.FirstTickAndAfter | src/hooks/useAnimatedSuggestions.ts:3-34 | the first step shows "SCHOOL 📚"; once stepped, the hook never returns null again, and the `n`-th step shows suggestion `(n - 1) mod 6` |
| AnimatedSuggestions.SuggestionRotator.constructor | src/hooks/useAnimatedSuggestions.ts:13-34 | the index starts at -1 and the hook returns null |
| AnimatedSuggestions.SuggestionRotator.NextSuggestion | src/hooks/useAnimatedSuggestions.ts:15-17 | the step sets the index to `(prev + 1) mod 6`, after which a suggestion is shown |
| AnimatedSuggestions.SuggestionRotator.Current | src/hooks/useAnimatedSuggestions.ts:34 | the returned value is null exactly at the unset index, and otherwise one of the suggestions |
| PaymentOptions.PaymentForm.constructor | src/components/PaymentOptions.tsx:11-17 | the form starts with `amount = 5`, `customAmount = ''`, the custom input hidden, empty donor and message, and not processing |
| PaymentOptions.PaymentForm.SelectAmount | src/components/PaymentOptions.tsx:19-22 | selecting a preset sets `amount` to it and hides the custom input |
| PaymentOptions.PaymentForm.ToggleCustomAmount | src/components/PaymentOptions.tsx:24-26 | the toggle only sets `showCustomAmount`; `amount` is unchanged |
| PaymentOptions.PaymentForm.ChangeCustomAmount | src/components/PaymentOptions.tsx:28-31 | the custom amount holds the input with everything except `0-9` and `.` removed |
| PaymentOptions.PaymentForm.ChangeDonorName | src/components/PaymentOptions.tsx:157 | the donor name holds the input |
| PaymentOptions.PaymentForm.ChangeMessage | src/components/PaymentOptions.tsx:167 | the message holds the input |
| PaymentOptions.FilterAmountChars | src/components/PaymentOptions.tsx:29 | the filter's result is no longer than its input and holds only digits and dots |
| PaymentOptions.FilterDistributes | src/components/PaymentOptions.tsx:29 | filtering a concatenation gives the concatenated filtered parts, so the kept characters stay in their original order |
| PaymentOptions.FilterSingle | src/components/PaymentOptions.tsx:29 | one character is kept exactly when it is a digit or a dot |
| PaymentOptions.FilterKeepsClean | src/components/PaymentOptions.tsx:29 | a string of digits and dots is left unchanged |
| PaymentOptions.FilterIdempotent | src/components/PaymentOptions.tsx:29 | filtering twice equals filtering once |
| PaymentOptions.FilterCounts | src/components/PaymentOptions.tsx:29 | every digit and dot of the input is kept, as many times as it occurs, and no other character is kept |
| PaymentOptions.FinalAmount | src/components/PaymentOptions.tsx:67 | the effective amount is the parsed custom value when the custom input is shown, and the preset otherwise |
| PaymentOptions.DonationRecord | src/components/PaymentOptions.tsx:45-53 | the recorded donation carries the page id, the amount, the message, `currency = 'USD'`, and the donor name, which is exactly `'Anonymous'` when empty and the given name otherwise |
| PaymentOptions.RecordDonation | src/components/PaymentOptions.tsx:33-62 | without a page id, `recordDonation` returns undefined and inserts nothing; an invalid amount alerts and inserts nothing; otherwise it inserts the record and returns true exactly when the insert succeeded; the only alert is 'Please enter a valid donation amount' |
| PaymentOptions.PayPalDonation | src/components/PaymentOptions.tsx:64-85 | the alert 'Please enter a valid donation amount' is raised exactly for an invalid or non-positive amount, which records and opens nothing; without a page id nothing is recorded or opened; otherwise the row inserted is `DonationRecord` of the page id, amount, name and message; PayPal opens at the amount's link exactly when that insert succeeded |
| PaymentOptions.PaymentForm.HandlePayPalDonation | src/components/PaymentOptions.tsx:64-85 | the click's effects are those of `PayPalDonation` for the form's props and its effective amount, and `isProcessing` is back to false |
| PaymentOptions.BareProps | src/pages/ResultPage.tsx:193 | a bare `<PaymentOptions />` receives neither a page id nor a title |
| PaymentOptions.BarePanelNeverDonates | src/components/PaymentOptions.tsx:34-82 | with no page id, even a valid amount with a successful insert records nothing, raises no alert and opens no PayPal link |
| PageRecord.FinalGifUrl | src/components/EditPage.tsx:94-107 | a save uses the dropped file's data URL when a file was dropped, and otherwise the URL already in the form |
| PageRecord.SaveThenLoad | src/components/EditPage.tsx:43-115 | saving the form, then loading the stored row back, gives the same form fields |
| PageRecord.LoadThenSave | src/components/EditPage.tsx:43-115 | loading a row and saving it unedited writes its text columns back, null as `''`; a row without null columns is stored unchanged |
| PageRecord.Classify | src/components/MyPage.tsx:35-44 | a lookup is a found row, the "no rows" error `PGRST116`, or any other error |
| PageRecord.WriteFor | src/components/EditPage.tsx:119-130 | a save updates by `id` exactly when a page id is known, and inserts otherwise, with the same record either way |
| PageRecord.AcceptedGif | src/components/EditPage.tsx:57-65 | a drop is accepted only for the first file, and only when its type is `image/gif` |
| PageRecord.SaveError | src/components/EditPage.tsx:79-87 | a save goes ahead exactly when signed in and the reason has a non-whitespace character; being signed out is reported first with the given message, then a blank reason with 'Please enter what you are begging for' |
| Common.TrimEmptyIffBlank | src/components/EditPage.tsx:84 | `trim()` gives `''` exactly when every character is ECMAScript whitespace |
| EditPage.EditPage.constructor | src/components/EditPage.tsx:12-21 | the form starts empty, with no page id, loading, and not saving |
| EditPage.EditPage.FetchPageData | src/components/EditPage.tsx:26-52 | signed out, nothing is fetched; a row sets `pageId` and the form fields, `title` to the reason and `reason` to the justification, with `''` for null; "no rows" and other errors change nothing; `isLoading` ends false |
| EditPage.EditPage.OnDrop | src/components/EditPage.tsx:57-66 | an accepted GIF sets the file and its preview URL; anything else changes nothing |
| EditPage.EditPage.RemoveGif | src/components/EditPage.tsx:237-241 | Remove clears both the file and its URL |
| EditPage.EditPage.ChangeReason | src/components/EditPage.tsx:211 | the reason holds the input |
| EditPage.EditPage.ChangeJustification | src/components/EditPage.tsx:256 | the justification holds the input |
| EditPage.EditPage.SetShowDeleteConfirm | src/components/EditPage.tsx:298-318 | the delete confirmation is shown or hidden |
| EditPage.EditPage.HandleSave | src/components/EditPage.tsx:76-144 | a failed check sets its message and writes nothing; otherwise it writes the form's record as an update of `pageId` or an insert; success goes to `/my-page` with no error; failure sets the error's message or 'Failed to save your page'; `isSaving` ends false |
| EditPage.EditPage.HandleDelete | src/components/EditPage.tsx:146-169 | nothing happens unless signed in with a known page id; the delete filters on both `id` and `user_id`; success goes to `/`; failure sets the error, clears `isDeleting` and hides the confirmation |
| EditPage.EditPage.GoToMyPage | src/components/EditPage.tsx:171-173 | the back button goes to `/my-page` |
| EditPage.EditPage.View | src/components/EditPage.tsx:175-300 | loading shows the indicator; otherwise the delete controls are offered exactly when a page id is known, and the confirmation only with them |
| EditPage.LoadThenSaveUnchanged | src/components/EditPage.tsx:39-124 | loading a page and saving it unedited updates that same page with its text columns, null as `''` |
| EditPage.FirstSaveInserts | src/components/EditPage.tsx:39-130 | after a "no rows" lookup, a save inserts a new page |
| ReasonPage.ReasonPage.constructor | src/pages/ReasonPage.tsx:12-18 | the form starts empty and loading, with no existing page and no error |
| ReasonPage.ReasonPage.ExistingId | src/pages/ReasonPage.tsx:116-121 | the id used for an update is the existing page's id, and is present exactly when a page was found |
| ReasonPage.ReasonPage.CheckExistingPage | src/pages/ReasonPage.tsx:21-52 | the check is skipped when signed out; a row becomes `existingPage` and fills reason, justification and GIF URL with `''` defaults; "no rows" and other errors fill nothing; `isLoading` ends false |
| ReasonPage.ReasonPage.OnDrop | src/pages/ReasonPage.tsx:54-63 | an accepted GIF sets the file and its preview URL; anything else changes nothing |
| ReasonPage.ReasonPage.RemoveGif | src/pages/ReasonPage.tsx:214-217 | Remove clears both `gif` and `gifUrl` |
| ReasonPage.ReasonPage.ChangeReason | src/pages/ReasonPage.tsx:188 | the reason holds the input |
| ReasonPage.ReasonPage.ChangeJustification | src/pages/ReasonPage.tsx:233 | the justification holds the input |
| ReasonPage.ReasonPage.HandleSubmit | src/pages/ReasonPage.tsx:73-148 | the same checks in the same order, with 'You must be logged in to create a page'; the write updates `existingPage.id` or inserts; success opens `/result` with the result query and stays loading; failure sets the error's message or 'Failed to save your page' and clears `isLoading` |
| ReasonPage.ReasonPage.GoToMyPage | src/pages/ReasonPage.tsx:150-152 | the button goes to `/my-page` |
| ReasonPage.ReasonPage.View | src/pages/ReasonPage.tsx:154-241 | loading shows the indicator; otherwise the My Page link appears exactly when a page exists, the preview when there is a GIF URL, and the error when it is non-empty |
| ReasonPage.BuildResultQuery | src/pages/ReasonPage.tsx:134-140 | the query always carries `reason` and `justification`, and carries `gif` only when the final GIF URL is non-empty; the result page reads the same values back |
| ReasonPage.ResultQueryReadsBack | src/pages/ReasonPage.tsx:134-140 | the result page reads back the saved reason and justification, and the GIF URL, or absent for an empty one |
| ReasonPage.FirstSubmitReachesResult | src/pages/ReasonPage.tsx:54-142 | a first submit with a GIF dropped inserts the page with the GIF's data URL, and the result page shows the same reason, justification and GIF |
| ResultPage.Get | src/pages/ResultPage.tsx:18-20 | `searchParams.get` gives null exactly for a missing key |
| ResultPage.ReadParams | src/pages/ResultPage.tsx:18-20 | a missing `reason` reads as `''`; `gif` and `justification` are null when absent |
| ResultPage.CopyLinkFor | src/pages/ResultPage.tsx:78-80 | the copied link is `origin/donate/{pageId}` when the page id is known, and otherwise origin plus the current path and search |
| ResultPage.ShareLinkFor | src/pages/ResultPage.tsx:92-94 | the shared link is `origin/donate/{pageId}` when the page id is known, and otherwise the full current URL |
| ResultPage.ShareUrl | src/pages/ResultPage.tsx:96-108 | only `twitter`, `facebook` and `linkedin` give a share URL, each with its template |
| ResultPage.ResultPage.constructor | src/pages/ResultPage.tsx:18-27 | the parameters are read once; all flags start false, with no page id and loading |
| ResultPage.ResultPage.FetchPageId | src/pages/ResultPage.tsx:29-53 | with no user the page-id lookup is skipped; a found id is kept, a failure keeps the old id; `isLoading` ends false either way |
| ResultPage.ResultPage.AnimationFinished | src/pages/ResultPage.tsx:55-62 | the animation timer sets `animationComplete`, keeping the hover invariant |
| ResultPage.ResultPage.HandleHover | src/pages/ResultPage.tsx:64-68 | a hover change takes effect only when the animation is complete and the panel is hidden; a page is never hovered with the panel open |
| ResultPage.ResultPage.HandleDonateClick | src/pages/ResultPage.tsx:70-73 | donate sets `showPaymentOptions = true` and `isHovered = false` |
| ResultPage.ResultPage.CloseOverlay | src/pages/ResultPage.tsx:190 | clicking the overlay hides the panel |
| ResultPage.ResultPage.DonateButtonShown | src/pages/ResultPage.tsx:164 | the donate button is shown only while hovered with the panel hidden |
| ResultPage.ResultPage.HandleCopyLink | src/pages/ResultPage.tsx:75-88 | the link written to the clipboard is the copy link, and the tooltip shows once the clipboard accepted it |
| ResultPage.ResultPage.HideCopiedTooltip | src/pages/ResultPage.tsx:84 | the timer hides the tooltip |
| ResultPage.ResultPage.HandleShare | src/pages/ResultPage.tsx:90-113 | a window opens exactly for the three platforms, with the share text and the share link |
| ResultPage.ResultPage.IntendedPanelProps | src/pages/ResultPage.tsx:37-44 | the corrected panel props, not what line 193 renders: the page id the page has looked up |
| ResultPage.ResultPage.GoToMyPage | src/pages/ResultPage.tsx:115-117 | the My Page button goes to `/my-page` |
| ResultPage.ResultPage.View | src/pages/ResultPage.tsx:119-233 | loading shows the indicator; otherwise the reason is shown, the GIF and the justification only when non-empty, and the panel exactly when opened, never together with the donate button; the panel is rendered bare, with no props |
| ResultPage.OpenedPanelNeverDonates | src/pages/ResultPage.tsx:193 | the opened panel, as rendered, has no page id, so a valid amount with a successful insert records nothing, raises no alert and opens no PayPal link |
| ResultPage.PanelWithPageIdDonates | src/pages/ResultPage.tsx:193 | with the page id passed to the panel, a valid amount with a successful insert records the donation for that page and opens PayPal |
| DonatePage.DonatePage.constructor | src/components/DonatePage.tsx:10-15 | the page starts loading, with no data, no error and no hover or panel |
| DonatePage.DonatePage.FetchPageData | src/components/DonatePage.tsx:17-39 | with no id the fetch never runs and nothing changes; a row becomes `pageData`; an error sets its message or 'Failed to load donation page'; `isLoading` ends false after any fetch |
| DonatePage.DonatePage.HandleHover | src/components/DonatePage.tsx:41-45 | hover is ignored while the panel is shown; the page is never hovered with the panel open |
| DonatePage.DonatePage.HandleDonateClick | src/components/DonatePage.tsx:47-50 | donate shows the panel and clears the hover |
| DonatePage.DonatePage.CloseOverlay | src/components/DonatePage.tsx:127 | clicking the overlay closes the panel |
| DonatePage.DonatePage.IntendedPanelProps | src/components/DonatePage.tsx:10-11 | the corrected panel props, not what line 130 renders: the route's page id |
| DonatePage.DonatePage.View | src/components/DonatePage.tsx:52-148 | loading shows the indicator; once not loading, "Page Not Found" is shown exactly when `error` is non-empty or `pageData` is null; otherwise the page's title, the donate button while hovered with the panel hidden, and the panel when opened, rendered bare with no props |
| DonatePage.OpenedPanelNeverDonates | src/components/DonatePage.tsx:130 | the opened panel, as rendered, has no page id, so a valid amount with a successful insert records nothing, raises no alert and opens no PayPal link |
| DonatePage.NoIdStaysLoading | src/components/DonatePage.tsx:19-54 | with no `id` the fetch never runs, so the page stays loading |
| DonatePage.FetchDecidesView | src/components/DonatePage.tsx:28-69 | a failed lookup shows "Page Not Found"; a found page shows its title |
| DonatePage.PanelWithPageIdDonates | src/components/DonatePage.tsx:130 | with the route id passed to the panel, a valid amount with a successful insert records the donation for this page and opens PayPal |
| MyPage.MyPage.constructor | src/components/MyPage.tsx:12-15 | the page starts loading, with no data, not deleting and no confirmation |
| MyPage.MyPage.Effect | src/components/MyPage.tsx:17-53 | it redirects to `/register` exactly when signed out and not loading; with no user nothing is fetched; `PGRST116` clears `pageData`, other errors keep it, and a row sets it; `isLoading` ends false |
| MyPage.MyPage.GoToForm | src/components/MyPage.tsx:55-135 | creating and editing both go to `/reason` |
| MyPage.MyPage.SetShowConfirm | src/components/MyPage.tsx:146-164 | the delete confirmation is shown or hidden |
| MyPage.MyPage.HandleDeletePage | src/components/MyPage.tsx:59-79 | delete needs a user and a loaded page and filters on `id` and `user_id`; both outcomes reset `isDeleting` and hide the confirmation; only success goes to `/` |
| MyPage.MyPage.View | src/components/MyPage.tsx:81-131 | loading shows the indicator; no page shows the create prompt; otherwise the page is shown, with its GIF and reason only when non-empty |
| MyPage.SignedOutMountStaysLoading | src/components/MyPage.tsx:13-25 | outside the guard, a signed-out mount neither redirects nor fetches, and stays loading |
| MyPage.SignOutWhileShown | src/components/MyPage.tsx:17-53 | a shown page redirects to `/register` once the effect reruns signed out |
| MyPage.FirstVisitPromptsCreate | src/components/MyPage.tsx:35-105 | a "no rows" lookup leads to the create prompt |

## Left out

- Supabase. Every query, insert, update, delete, `getSession`, `signOut`
  and the OAuth flow in `src/lib/supabase.ts` is a network call. The model
  takes its result as a parameter and returns the request it would send. Errors
  the client throws, as opposed to those it returns, are treated as returned
  errors.
- Async interleaving. Each awaited completion is one atomic event, and every
  order of events can be replayed. The auth provider deliberately has no
  sequence guard between the session check and the notifications, because
  the code has none. A stale check can overwrite a newer sign-in; see
  `AuthContext.StaleCheckOverwritesNotification` and
  `App.CheckResolvesAfterNotification`.
- Pending windows that end within the same handler are not separate states.
  These are `isProcessing` in `handlePayPalDonation`, `isSaving` in
  `handleSave`, `isDeleting` in MyPage's `handleDeletePage`, `isLoading`
  while MyPage's effect fetches the page, and `isLoading` in ReasonPage's
  `handleSubmit`, which a failed save clears again. Methods state
  only the state after the awaited result. Sign-out is split into two methods
  because the guard can be observed between them.
- Timers. These are the suggestion hook's `setTimeout` and `setInterval`, the
  result page's 2.5 s animation timer, and the 2 s tooltip timer. Only the
  state steps they trigger are modelled: `NextSuggestion`,
  `AnimationFinished`, `HideCopiedTooltip`.
- Floating point. `parseFloat` and its `NaN` are an abstract partial function
  `string -> Option<real>`. The amount as printed in the PayPal URL is an
  abstract `real -> string`. Amounts are mathematical reals.
- Encoding. `encodeURIComponent` is an abstract `string -> string`.
  `URLSearchParams` percent-encoding and decoding are not modelled: the query
  is a key/value map that the result page reads back unchanged.
- Browser APIs appear only as inputs or outputs:
  - FileReader's data URL and `URL.createObjectURL` are string inputs.
  - The clipboard's success is a boolean input.
  - `window.open` and `alert` are reported effects.
  - The react-dropzone internals are not modelled; only the `onDrop` callback
    is.
- `updated_at: new Date()` in the saved record depends on the clock and is
  omitted.
- The user record carries only its id and email; `user_metadata` and the
  rest of the Supabase user are not used by the core.
- Ids are non-empty strings, so testing an id for truthiness is testing
  whether it is present.
- Presentation and animation are not modelled. This covers:
  - the class names, motion values, and the upper-casing of titles;
  - FallingText, DustParticle, AnimatedGradientText, TextLine,
    SuggestionText, DonateButton, PaymentOption, LydiaIcon, Navigation,
    Navbar, UserMenu, HomePage, LandingPage, ReasonInput;
  - the static list of HotPage.
- `src/components/HotPage.tsx` and `DonationHistory.tsx` are not modelled.
  Their ordering, limits and date and float formatting happen in the backend
  or in foreign library calls.
- `src/components/AuthComponent.tsx` is an unused duplicate of the auth
  listener and is not part of this model.
- The EditPage component is not in the route table. Its logic is modelled on
  its own, without a route.
- App.Match: the URL is given already split into its segments, so the
  router's tolerance of a trailing slash and its percent-decoding of
  parameter values are not modelled.
- `OnAuthStateChange` takes a registered listener as the condition for
  delivery. The source relies on the auth client to stop calling the
  callback after `unsubscribe`.

## Findings

| source | as written | input that shows it | evidently intended | confidence | as-written member | corrected member |
|---|---|---|---|---|---|---|
| src/components/DonatePage.tsx:130 | the donation page renders `<PaymentOptions />` with no `pageId`, so `recordDonation` returns `undefined` before inserting and PayPal never opens | any visit to `/donate/<id>`, amount 5, successful insert: no donation row, no PayPal window | the panel is given the page's id and title, so the donation is recorded for that page and PayPal opens | high, not executed | DonatePage.OpenedPanelNeverDonates | DonatePage.PanelWithPageIdDonates |
| src/pages/ResultPage.tsx:193 | the result page renders `<PaymentOptions />` with no `pageId`, with the same effect | a signed-in owner with a saved page opens the panel, amount 5, successful insert: no donation row, no PayPal window | the panel is given the owner's page id, which the page has already looked up | high, not executed | ResultPage.OpenedPanelNeverDonates | ResultPage.PanelWithPageIdDonates |

Both views render the panel as written, with `PaymentOptions.BareProps`
(`DonatePage.OpenedPanelNeverDonates`, `ResultPage.OpenedPanelNeverDonates`).
The corrected props are `IntendedPanelProps` in each page class.
