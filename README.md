# Postly web client: session, feeds, votes and forms

This project models the client-side logic of the Postly micro-posting web client,
an Angular single-page application. The server does all the real work; the client
keeps a handful of small, event-driven state machines in step with the server's
answers. The model covers:

- the **session holder** (`AccountService`): the `jwt` cookie, the replay-1 cell
  holding the current user's claims, the status probe that refreshes it, login,
  logout, and the account endpoint URLs, which address either a named user or `me`;
- the **start page feeds** (`StartComponent`): the public and the following feed,
  each a list of posts. Pages are appended at the end. A newly created post is put
  at the front. The cursor is the creation time of the last post held. A loading
  flag is cleared on success and on error;
- the **vote widget** (`PoststatsComponent`): an in-flight guard, the choice between
  removing and setting a vote, the server's counts copied in on success, and a
  rollback to the previous vote on error;
- the **post details dialog** (`PostlistComponent`): comment drafts kept per post,
  the comment guards, and the dialog header text;
- the **profile settings** (`ProfileComponent`): the save button text per tab, and
  the three save paths with their guards and error messages;
- the **statistics page** (`StatisticsComponent`): chart labels and data from a
  per-day reply, today's number, and the CSV text of a download;
- the **administrator's query page** (`AdminComponent`), the **sign-up** and
  **sign-in** forms (`RegisterComponent`, `LoginComponent`), the root component's
  current route (`AppComponent`), and the `showGeneralError` toast helper.

Each component is a Dafny class whose fields are the component's fields. Every
request/response pair is two methods. The first records the call in a ghost
`requests` log. The second is a handler that takes the server's answer as a
parameter (`Response<T>`: `Ok(value)` or `Err(HttpError(status, body))`). Toasts
are records appended to a `MessageService` class. Navigations are recorded as
target strings. Values that come from outside the code are parameters: the clock
(`now`), the claims decoded from a token, the parsing of a date string, the text
of a formatted date, and how a router navigation settles.

The modules are:

- `Wrappers`: Option.
- `Strings`: JavaScript `split`/`join` and number text.
- `Dtos`: the data transfer objects.
- `Http`: requests, error bodies and responses.
- `Utils`: toasts.
- `Content`: the calls into the content and database services.
- One module per component: `Account`, `Start`, `Poststats`, `Postlist`,
  `Profile`, `Statistics`, `Admin`, `Register`, `Login`, `App`.

Three behaviours of the code are easy to miss, and the model keeps them:

- Feed pagination has no in-flight guard. Two clicks on "load more" issue two
  requests (`Start.NoPaginationGuard`).
- The vote widget does not change the post before the server answers.
- Paginating an empty feed is not an error. The cursor is then "now".

## Model

| member | source | states |
|---|---|---|
| `Dtos.FromOrdinal` | src/DTOs/error.ts:1-13 | the server's error numbers 0 to 10 denote exactly the eleven codes, in declaration order |
| `Http.Includes` | src/app/profile/profile.component.ts:159-165 | `includes` on an array body is membership of the code (never true for an array of strings); on a text body it is whether the code's number occurs in the text; on null, a number or another object the call throws |
| `Http.IsCodeOnCodes` | src/app/profile/profile.component.ts:200 | under JavaScript's loose `==`, an array body equals a code exactly when it holds that one code, or is empty and the code is numbered 0; an array of two or more codes equals none |
| `Http.IsCodeOnText` | src/app/profile/profile.component.ts:234 | a text body holding a code's number equals exactly that code, and an empty text equals the code numbered 0 |
| `Utils.ShowGeneralError` | src/utils.ts:10-15 | appends exactly one message; severity defaults to error and summary to "Error"; the detail is the given text |
| `Account.LoginRequest` | src/app/account.service.ts:44-53 | a POST of both credentials whose URL reads back as the single segment `login`, so it is no user's account path |
| `Account.RegisterRequest` | src/app/account.service.ts:79-88 | a POST of both credentials whose URL reads back as the single segment `register`, so it is no user's account path |
| `Account.LoginIsNotRegister` | src/app/account.service.ts:79-88 | a sign-up request is never the same request as a sign-in request, whatever the credentials |
| `Account.PathOfDetermines` | src/app/account.service.ts:126-132 | an account URL is fixed by the segments it reads back as, so the segments the endpoint builders state fix their whole URL |
| `Account.GetUserProfilePath` | src/app/account.service.ts:126-132 | the URL of the GET (`GetUserProfile` states verb and empty body) reads back as the segments of the given username, or `me` without one, followed by `profile`; a username holding `/` is concatenated as it is and reads back as several segments |
| `Account.GetUserDataPath` | src/app/account.service.ts:138-140 | the URL of the GET reads back as `me` followed by `data` |
| `Account.UpdateUserDataPath` | src/app/account.service.ts:148-154 | the URL of the PATCH (`UpdateUserData` states that it carries the update) reads back as the segments of the given username, or `me`, followed by `data` |
| `Account.ChangeUserNamePath` | src/app/account.service.ts:171-178 | the URL of the PUT (`ChangeUserName` states that it carries the new name) reads back as the segments of the old username, or `me`, followed by `username` |
| `Account.ChangePasswordPath` | src/app/account.service.ts:200-207 | the URL of the PUT (`ChangePassword` states that it carries old and new password) reads back as the segments of the username, or `me`, followed by `password` |
| `Account.GetFollowerPath` | src/app/account.service.ts:246-252 | the URL of the GET reads back as the segments of the given username, or `me`, followed by `followers` |
| `Account.GetFollowingPath` | src/app/account.service.ts:259-265 | the URL of the GET reads back as the segments of the given username, or `me`, followed by `following` |
| `Account.ChangeFollow` | src/app/account.service.ts:233-239 | the same path both ways, reading back as `me`, `following`, then the target: POST to follow, DELETE to unfollow |
| `Account.DeleteUserPath` | src/app/account.service.ts:289-290 | the URL of the DELETE reads back as the segments of the username and nothing after them, which addresses that user even when it is oneself |
| `Account.StatusSignsOutExactly` | src/app/account.service.ts:96-109 | the probe publishes "no session" exactly on `false`, on 401, or on `true` with no decoded claims; it publishes nothing exactly on other errors |
| `Account.AccountService.GetCurrentUserJwt` | src/app/account.service.ts:117-119 | a new observer receives the latest published value, and nothing before the first publish |
| `Account.AccountService.Publish` | src/app/account.service.ts:34 | the replay-1 cell holds exactly the last value published |
| `Account.AccountService.RefreshCurrentJwt` | src/app/account.service.ts:93-94 | sends one status probe carrying the current cookie and changes nothing else |
| `Account.AccountService.OnStatus` | src/app/account.service.ts:96-111 | `true` publishes the decoded claims; `false` and 401 publish null; any other error publishes nothing and leaves the cell unchanged |
| `Account.AccountService.Login` | src/app/account.service.ts:44-53 | sends the credentials and changes no state |
| `Account.AccountService.OnLoginResponse` | src/app/account.service.ts:54-59 | success sets cookie `jwt` to the response text, then sends exactly one probe carrying it; failure sets no cookie and publishes nothing |
| `Account.AccountService.Logout` | src/app/account.service.ts:65-71 | deletes the cookie before the probe, so the probe carries none; navigates only for a non-empty redirect |
| `Account.AccountService.OnUserNameChanged` | src/app/account.service.ts:186-190 | a successful username change logs out and redirects to `/login?ref=u` |
| `Account.AccountService.OnPasswordChanged` | src/app/account.service.ts:220-224 | a successful password change logs out and redirects to `/login?ref=u` |
| `Account.AccountService.OnUserDeleted` | src/app/account.service.ts:291-297 | logs out, without navigating, only when `isMe` holds |
| `Start.CursorIsOldest` | src/app/start/start.component.ts:102-108 | the cursor is the last post's creation time; in a newest-first feed every other post is newer than it |
| `Start.OlderPageKeepsOrder` | src/app/start/start.component.ts:123-127 | appending a newest-first page older than the cursor keeps the feed newest-first |
| `Start.NewerPostKeepsOrder` | src/app/start/start.component.ts:72-77 | putting a post newer than the head in front keeps the feed newest-first |
| `Start.StartComponent.constructor` | src/app/start/start.component.ts:22-92 | both feeds start null, both flags false, and the first public page is requested with cursor "now" |
| `Start.StartComponent.OnFirstPublicPage` | src/app/start/start.component.ts:82-92 | the first public page replaces the public feed wholesale; an error adds one message and leaves the feed |
| `Start.StartComponent.OnSession` | src/app/start/start.component.ts:39-57 | stores the claims; with a session it requests the first private page, without one it sets the private feed to `[]` |
| `Start.StartComponent.OnFirstPrivatePage` | src/app/start/start.component.ts:44-54 | the first private page replaces the private feed wholesale; an error adds one message |
| `Start.StartComponent.OnNewPostId` | src/app/start/start.component.ts:61-63 | a new post id triggers a fetch of that post |
| `Start.StartComponent.OnRetrievedPost` | src/app/start/start.component.ts:63-77 | the fetched post goes to index 0 with the others in their order; a null feed becomes `[post]`; an error adds one message |
| `Start.StartComponent.LoadNextPublicPage` | src/app/start/start.component.ts:100-110 | sets the flag and requests the page after the cursor, without checking the flag first |
| `Start.StartComponent.OnNextPublicPage` | src/app/start/start.component.ts:112-128 | the page is appended in order; a null feed becomes the page; an empty page adds exactly one info message; an error leaves the feed and adds one error; the flag is cleared in every case |
| `Start.StartComponent.LoadNextPrivatePage` | src/app/start/start.component.ts:137-150 | does nothing without a session; otherwise sets the flag and requests the page after the cursor |
| `Start.StartComponent.OnNextPrivatePage` | src/app/start/start.component.ts:152-168 | as for the public feed, on the private feed |
| `Poststats.VoteRequestFor` | src/app/poststats/poststats.component.ts:46-54 | clicking the vote already set removes it, with that vote as the fallback; any other click sets the vote, falling back to the current vote or null |
| `Poststats.ToggleOff` | src/app/poststats/poststats.component.ts:46-54 | a click on an unvoted post sets the vote, and a second click on the same vote removes it |
| `Poststats.PoststatsComponent.Vote` | src/app/poststats/poststats.component.ts:39-55 | ignored while a request is in flight; otherwise sets the flag and issues one request, or none without a post, so that the flag stays set; the post is not touched |
| `Poststats.PoststatsComponent.RequestVote` | src/app/poststats/poststats.component.ts:62-72 | a set-vote call for the post, if there is one |
| `Poststats.PoststatsComponent.RequestVoteRemove` | src/app/poststats/poststats.component.ts:78-88 | a remove-vote call for the post, if there is one |
| `Poststats.PoststatsComponent.HandleVoteError` | src/app/poststats/poststats.component.ts:95-105 | exactly one message (warn "must be logged in" for 401, a generic error otherwise), the vote back to `previousVote`, the counts kept, the flag cleared |
| `Poststats.PoststatsComponent.HandleSuccess` | src/app/poststats/poststats.component.ts:107-114 | upvote and downvote counts and the vote become the server's values; the flag is cleared |
| `Postlist.AuthorLabelReadsBack` | src/app/postlist/postlist.component.ts:148-152 | the username is what follows the one `@` (closed by `)` after a display name), and a display name is what precedes ` (`; without one, nothing precedes the `@` |
| `Postlist.HeaderReadsBack` | src/app/postlist/postlist.component.ts:148-153 | the header splits at its one vertical bar into the author label and the formatted date |
| `Postlist.PostlistComponent.ShowPostDetails` | src/app/postlist/postlist.component.ts:52-57 | the details are built, the saved draft is restored (null when none), the dialog is shown, and the comments are requested |
| `Postlist.PostlistComponent.LoadComments` | src/app/postlist/postlist.component.ts:60-61 | requests the comments of the post |
| `Postlist.PostlistComponent.OnCommentsLoaded` | src/app/postlist/postlist.component.ts:62-72 | the comments replace those of the open details wholesale; an error adds one message |
| `Postlist.PostlistComponent.PostDetailsHide` | src/app/postlist/postlist.component.ts:79-83 | the text, or `''` for null, is saved under the open post's id; other drafts are unchanged |
| `Postlist.PostlistComponent.OnDiscardAccepted` | src/app/postlist/postlist.component.ts:94-96 | a confirmed discard empties the comment input |
| `Postlist.PostlistComponent.Comment` | src/app/postlist/postlist.component.ts:104-118 | sends the comment exactly when details are open and the text is non-empty and at most 282 UTF-16 code units long |
| `Postlist.CommentLimit` | src/app/postlist/postlist.component.ts:27 | the length limit allows 282 characters of the Basic Multilingual Plane but only 141 characters, such as emoji, from beyond it |
| `Postlist.PostlistComponent.OnCommentCreated` | src/app/postlist/postlist.component.ts:119-131 | success clears the text and reloads the comments; failure keeps the text and adds one message |
| `Profile.SaveButtonText` | src/app/profile/profile.component.ts:91-104 | tabs 0 and 1 give "Save", tab 2 gives "Change username", tab 3 gives "Change password", and any other value leaves the text |
| `Profile.UpdateErrorReasons` | src/app/profile/profile.component.ts:158-167 | the birthday reason comes before the email reason, each present exactly when `includes` finds its code in the body (an array or a text); a body without `includes` yields nothing |
| `Profile.UpdateErrorOutcomes` | src/app/profile/profile.component.ts:158-174 | for each outcome of the two `includes` tests the message detail is: both reasons joined by a comma after the introduction, one reason after it, or the generic failure text when neither code is found |
| `Profile.UpdateErrorDetailReadsBack` | src/app/profile/profile.component.ts:169-170 | the detail is the introduction followed by the reasons joined with commas, and the reasons can be split back out |
| `Profile.ProfileComponent.OnRouteParams` | src/app/profile/profile.component.ts:68-89 | `isMe` holds exactly when the route has no username; it requests the profile, then one's own data when `isMe`, then the user's feed; every other field stays |
| `Profile.ProfileComponent.OnUserProfile` | src/app/profile/profile.component.ts:73-75 | the profile reply is stored and every other field stays |
| `Profile.ProfileComponent.OnUserFeed` | src/app/profile/profile.component.ts:85-87 | the feed reply replaces the posts and every other field stays |
| `Profile.ProfileComponent.OnTabChange` | src/app/profile/profile.component.ts:91-104 | the button text follows the selected tab; every other field stays |
| `Profile.ProfileComponent.SetSaveBtnLoading` | src/app/profile/profile.component.ts:106-112 | the tab selector is disabled exactly while saving |
| `Profile.ProfileComponent.SetUserDate` | src/app/profile/profile.component.ts:115-121 | the settings form becomes a copy of the data, the username form its name, and `userData` the data |
| `Profile.ProfileComponent.Discard` | src/app/profile/profile.component.ts:123-134 | ignored while saving or without an event target; otherwise hides the dialog and resets the form from `userData`; the route, posts, profile, tab, button text and passwords stay |
| `Profile.ProfileComponent.Save` | src/app/profile/profile.component.ts:136-250 | ignored while saving, otherwise loading is set first. The profile tabs send an update, addressed to null on one's own profile. The username tab warns about an empty name but still sends the change. The password tab stops with one warning on an empty field or a mismatch. Only loading, requests and messages change |
| `Profile.ProfileComponent.OnUpdateUserDataError` | src/app/profile/profile.component.ts:157-177 | exactly one message built from `UpdateErrorReasons` of the body (birthday before email, or the generic text when neither is found), and loading cleared; a body without `includes` throws and changes nothing; every other field stays |
| `Profile.ProfileComponent.OnUpdateUserDataSuccess` | src/app/profile/profile.component.ts:179-188 | the profile is refetched, the dialog closed, the data taken over, one info message added, loading cleared; the route, posts, profile, tab, button text and passwords stay |
| `Profile.ProfileComponent.OnChangeUserNameError` | src/app/profile/profile.component.ts:199-209 | a warning when the body loosely equals the taken-name code, a generic error otherwise; loading cleared; every other field stays |
| `Profile.ProfileComponent.OnCredentialChangeSuccess` | src/app/profile/profile.component.ts:211-213 | loading cleared and every other field stays |
| `Profile.ProfileComponent.OnChangePasswordError` | src/app/profile/profile.component.ts:232-243 | a warning when the body loosely equals the wrong-password code, a generic error otherwise; loading cleared; every other field stays |
| `Statistics.KeysValuesAlign` | src/app/statistics/statistics.component.ts:160-161 | labels and data have equal length, and the i-th label is the key of the i-th value |
| `Statistics.UtcMidnightInjective` | src/app/statistics/statistics.component.ts:203-205 | two calendar days share a UTC midnight only when `Date.UTC` reads their years alike (years 0 to 99 as 1900 to 1999); outside the years 0 to 99 exactly when they are the same day |
| `Statistics.TwoDigitYearsCollide` | src/app/statistics/statistics.component.ts:203-205 | 1 June 0050 and 1 June 1950 have the same UTC midnight |
| `Statistics.CompareWithToday` | src/app/statistics/statistics.component.ts:191-196 | true when the string parses to today's calendar day, and only when it parses to a day whose year `Date.UTC` reads as today's; exactly when it parses to today unless today's year is between 0 and 99 or between 1900 and 1999 |
| `Statistics.GetTodayStat` | src/app/statistics/statistics.component.ts:173-184 | 0 for an empty reply or an empty last key; otherwise the last key's value when `compareWithToday` accepts that key, and 0 when it does not; outside the years 0 to 99 and 1900 to 1999, accepted exactly when the key parses to today |
| `Statistics.CsvRoundTrip` | src/app/statistics/statistics.component.ts:230-235 | read back line by line, the CSV text is the header `Date;Amount`, then `label;data[i]` per label in label order, then an empty last line |
| `Statistics.Download` | src/app/statistics/statistics.component.ts:229-239 | the loop builds the `data:` prefix followed by the CSV text, and the file name is the data set label followed by `.csv` |
| `Statistics.StatisticsComponent.constructor` | src/app/statistics/statistics.component.ts:54-79 | four per-day charts in a fixed order, with their references, titles and data set labels, and no data |
| `Statistics.StatisticsComponent.OnGenderDistribution` | src/app/statistics/statistics.component.ts:144-149 | the pie's labels are the reply's keys and its data the values |
| `Statistics.StatisticsComponent.OnPerDayResponse` | src/app/statistics/statistics.component.ts:157-164 | chart i gets the keys as labels, the values as data with each value under its own key, and today's number; the other charts are unchanged |
| `Admin.ErrorHeader` | src/app/admin/admin.component.ts:53-61 | the header for 400, the "unknown error" header exactly for 500, the connection header for any other status |
| `Admin.InfoMessage` | src/app/admin/admin.component.ts:70 | the row count's text, which reads back as the count (`null` when absent), followed by " rows were affected!" |
| `Admin.AdminComponent.Execute` | src/app/admin/admin.component.ts:36-49 | does nothing while loading or with an empty query; otherwise loading is set and all five outputs cleared before the query goes out |
| `Admin.AdminComponent.OnError` | src/app/admin/admin.component.ts:51-62 | the header for the status, `errorMsgs` set to the body only for 400, loading cleared; only the error header is then on display |
| `Admin.AdminComponent.OnSuccess` | src/app/admin/admin.component.ts:65-73 | a result set gives columns and rows, anything else the affected-rows note; loading cleared; at most one outcome is on display |
| `Register.RefusalMessage` | src/app/register/register.component.ts:72-83 | a warning with a summary for a taken username, an error without one for any other refusal |
| `Register.RegisterComponent.SetLoading` | src/app/register/register.component.ts:89-100 | sets `loading`, and disables the three controls when set and enables them when cleared |
| `Register.RegisterComponent.Register` | src/app/register/register.component.ts:26-55 | does nothing when loading or when a field is invalid or null; mismatched passwords add one warning with no request and loading unchanged; otherwise loading is set and the registration sent |
| `Register.RegisterComponent.OnRegisterError` | src/app/register/register.component.ts:57-64 | one error message and loading cleared |
| `Register.RegisterComponent.OnRegisterResult` | src/app/register/register.component.ts:66-85 | success increments `step` by exactly one; a refusal adds one toast by error code; loading is not reset |
| `Login.DestinationIsRefOrStart` | src/app/login/login.component.ts:62-81 | the user ends on `ref` exactly when it is given and the navigation resolves true; otherwise on `/` |
| `Login.Navigations` | src/app/login/login.component.ts:62-81 | navigates to `ref` when given and then to `/` if that yields false or rejects; to `/` alone without `ref` |
| `Login.LoginComponent.SetLoading` | src/app/login/login.component.ts:93-102 | sets `loading`, and disables both controls when set and enables them when cleared |
| `Login.LoginComponent.Login` | src/app/login/login.component.ts:23-44 | does nothing when loading or when a field is invalid or null; otherwise both controls are disabled and loading set before the credentials go out |
| `Login.LoginComponent.OnLoginError` | src/app/login/login.component.ts:46-54 | one error message and loading cleared; the fields, requests and navigations stay |
| `Login.LoginComponent.OnLoginResponse` | src/app/login/login.component.ts:56-89 | an empty response adds the "Username or password wrong" warning and clears loading; any other response navigates as `Navigations` says; the fields stay |
| `App.CurrentRoute` | src/app/app.component.ts:26 | the route is a prefix of the URL, holds no `?`, and is followed in the URL by a `?` when it is shorter |
| `App.RouteWithoutQuery` | src/app/app.component.ts:26 | a URL without `?` is its own route |
| `App.RouteThenQuery` | src/app/app.component.ts:26 | the URL is the route followed by a suffix that is empty or starts with `?` |
| `App.RouteOfRouteAndQuery` | src/app/app.component.ts:26 | the route of `route?query` is `route` when the route has no `?` |
| `App.AppComponent.OnNavigationEnd` | src/app/app.component.ts:21-27 | after each NavigationEnd the current route is the route of the router's URL |
| `App.AppComponent.OnLoginStatus` | src/app/app.component.ts:33-36 | the login status stream's value is stored |

## Left out

- HTTP transport, RxJS subscriptions and their timing, and the cookie service. The
  model has no real I/O. Each server reply is a handler parameter and each request
  an entry in a ghost log. The `jwt` cookie is a field of the account service.
- Decoding the token (`JwtHelperService.decodeToken`) is a foreign library. The
  decoded claims are an input to `Account.AccountService.OnStatus`, and claims are
  an opaque map.
- The 500 ms `setTimeout` before the logout redirect, and the router's own
  behaviour. Only navigation targets are recorded. How a navigation settles is an
  input to `Login.LoginComponent.OnLoginResponse`.
- Real dates, time zones and `toUTCString`. Timestamps are integers. Calendar days
  are (year, month, date) triples. Parsing a date string and reading today's day are
  inputs. The date pipe's text is an input to `Postlist.Header`. The birthday
  conversion in `setUserDate` is not modelled.
- DOM link creation and `encodeURI` in `download`. Only the CSV string and the file
  name are modelled. Chart.js and PrimeNG rendering, `getComputedStyle`, the
  totals shown on the statistics page and the random shuffle of the skeleton
  heights are left out too.
- `Account.AccountService.OnStatus`: a `true` answer publishes whatever the helper
  decodes. When no token is stored, that is `null`, which the model receives as
  `None`.
- `Admin.AdminComponent.OnSuccess`: "exactly one outcome on display" holds only
  when a result set comes with columns or rows. With both null, nothing is shown,
  and the contract says so.
- The account service's `updateUserRole`, `changeUserProfileImage` and
  `deleteUserProfileImage` are not part of this model. They are plain requests with
  no branching, and no core operation calls them.
- The methods `isLoggedIn`, `refreshLoginStatus`, `getPrivateFeed`,
  `retrievePost`, `getNewPostObservable`, `setVote`, `removeVote` and
  `getUserFeed` are called but not defined: `isLoggedIn` and `refreshLoginStatus`
  are absent from src/app/account.service.ts, the others from
  src/app/content.service.ts.
  Their calls are recorded as `Content.Call` values, and their answers are handler
  inputs. `AppComponent.loggedIn` and `PostlistComponent.loggedIn` only store the
  stream's value. The latter is not modelled.
- `PostDTO` has no `vote` field in src/DTOs/postdto.ts, yet the vote widget reads
  and writes `post.vote`. The model adds `vote: Option<VoteType>`, where `None` is
  undefined or null.
- The `RegisterError` enum (src/DTOs/registererror.ts) is not part of this model.
  The error of a refused registration is modelled as an `ErrorCode`. Only its
  comparison with `UsernameAlreadyInUse` matters.
- The content, database, search and statistics services are thin HTTP wrappers,
  and are not modelled beyond the calls the components make. The same holds for
  the search and user-list components and the module wiring. The content service
  defaults a missing `from` to the epoch, but the feeds here always pass a cursor.
- The profile page's own feed has no pagination in the code (`loadingNextPage` is
  never used), so none is modelled.
- `Http.IsCode`: JavaScript also reads hexadecimal, signed, fractional and exponent
  texts as numbers (`"0x5"`, `"+5"`, `"5.0"`, `"5e0"`). The model reads only
  decimal digits with white space around them, and takes every other text as NaN.
  Null elements inside an array body are not modelled either.
- Dates outside the ECMAScript time range (about 273,000 years either side of
  1970), for which `Date.UTC` gives NaN, are not modelled.
