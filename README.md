# rawfli frontend core, modelled in Dafny

This project models the client-side core of the rawfli community site, a
Next.js/React frontend. The core covers:

- the API client: `request`, `api.get`, `api.post`, `api.delete` and
  `api.upload`, with their response envelope `{result, code, data}`;
- the fault-tolerant server-side fetchers `fetchPublicApi` and the landing
  page's `fetchApi`;
- the token store and the auth endpoints;
- the landing page's board-feed assembly;
- four stateful components: the comment section, the like button, the
  header search box and the login/signup dialog;
- the relative-time and image-URL helpers.

Pure code is modelled as datatypes and functions. Each component is a
`class`, with a field for each React state variable. Each of its handlers is
a `method` whose `ensures` state the complete new state in every case: the
not-logged-in alert, validation failures, a thrown error, an `ApiError` and
success.

The network is an input. A `Response<T>` is either `Thrown`, meaning `fetch`
or `res.json()` threw, or `Received(envelope)`. The envelope's `data` is
either a string (`Str`) or a typed value (`Typed`), as the source's
`T | string` allows. The model distinguishes the two wherever the source
does, with one exception:
- error messages take the string `data`;
- a board-list payload that is a string makes the page's `.map` throw;
- search results that are missing send the search box to its error text;
- the exception: a string returned by a successful comment post is not
  appended to the comment list, as listed under Left out below.

A successful login envelope is taken to carry its token as a string, the
only form a JSON string decodes to; a failed login envelope may carry any
`data`.

The token that `getToken` would read is passed to the API methods as a
parameter. Components read it from a `TokenStore` object, whose `storage` map
stands in for `localStorage`.

Modules:
- `Wrappers`: `Option` and `??`.
- `Text`: `trim`, truthiness and `${n}`.
- `Types`: the backend's value shapes.
- `Api`: `src/lib/api.ts`.
- `PublicApi`: `src/lib/publicApi.ts`.
- `Auth`: `src/lib/auth.ts`.
- `HomePage`: `src/app/page.tsx`.
- `CommentSection`, `ArticleBody`, `SearchBar` and `AuthModal`: the
  components.
- `RelativeTime`: `src/shared/utils/time.ts`.
- `ImageUrl`: `src/shared/utils/image.ts`.

A behaviour worth knowing: after a successful signup, the dialog sets its
success notice and asks the parent to switch to the login form. The dialog's
effect on `mode` then clears both messages, so the notice does not survive
the switch. `AuthModal.SignupThenSwitchToLogin` states this.

## Model

| member | source | states |
|---|---|---|
| `Text.Trim` | src/components/home/SearchBar.tsx:67 | `trim` never lengthens its input, and a non-empty result neither starts nor ends with whitespace |
| `Text.TrimSpec` | src/components/home/SearchBar.tsx:67 | `trim` keeps exactly the slice between the leading and the trailing whitespace run; both dropped runs are blank and the kept text neither starts nor ends with whitespace |
| `Text.TrimEmptyIffBlank` | src/components/article/CommentSection.tsx:61-62 | `!s.trim()` holds exactly when every character of `s` is whitespace (the empty string included) |
| `Text.ParseNatString` | src/shared/utils/time.ts:12 | the decimal text `${n}` of a natural number reads back as that number |
| `Text.IntStringInjective` | src/components/home/SearchBar.tsx:105-108 | distinct integers print as distinct decimal texts |
| `Api.ErrorMessage` | src/lib/api.ts:43 | the `ApiError` message is the envelope's `data` when it is a string, otherwise the call's fallback text |
| `Api.Decode` | src/lib/api.ts:42-47 | a successful envelope yields its `data` untouched; a failed one raises an `ApiError` carrying the envelope's `code` and the string `data` or the fallback |
| `Api.Receive` | src/lib/api.ts:35-47 | a call returns exactly when the envelope's `result` is true; a thrown `fetch`/`json` error propagates as a non-`ApiError` |
| `Api.DataOrNull` | src/app/page.tsx:25-38 | the fault-tolerant fetch yields `data` exactly when the envelope succeeded and null on a failed envelope or any thrown error |
| `Api.RequestHeaders` | src/lib/api.ts:26-33 | the header keys are the caller's plus Content-Type, plus Authorization iff the token is truthy; Content-Type defaults to JSON unless the caller sets it; Authorization is `Bearer <token>` and overrides the caller; every other caller header is kept |
| `Api.BuildHeaders` | src/lib/api.ts:26-33 | the header record built and then updated in place equals `RequestHeaders` |
| `Api.Prepare` | src/lib/api.ts:35-38 | the request sent keeps the caller's endpoint, method and body and carries `RequestHeaders` |
| `Api.Request` | src/lib/api.ts:20-48 | `request` sends the prepared request and settles as `Receive` with the generic fallback |
| `Api.GetInit` | src/lib/api.ts:51 | `api.get` passes no method, no body and no headers |
| `Api.PostInit` | src/lib/api.ts:53-57 | `api.post` uses POST and serialises the body exactly when it is present and truthy; otherwise no body is sent |
| `Api.DeleteInit` | src/lib/api.ts:59-60 | `api.delete` uses DELETE with no body |
| `Api.Get` | src/lib/api.ts:51 | a GET of the endpoint with the default headers, settling as `Receive` |
| `Api.Post` | src/lib/api.ts:53-57 | a POST of the endpoint with the `PostInit` body and the default headers, settling as `Receive` |
| `Api.Delete` | src/lib/api.ts:59-60 | a DELETE of the endpoint with the default headers, settling as `Receive` |
| `Api.Upload` | src/lib/api.ts:62-86 | a multipart POST with the file under "image"; no Content-Type; Authorization present iff the token is truthy; failures use the upload fallback message |
| `PublicApi.Revalidate` | src/lib/publicApi.ts:14 | the revalidation hint is the caller's value when given (0 included) and 30 otherwise |
| `PublicApi.FetchPublicApi` | src/lib/publicApi.ts:8-26 | requests the path with its revalidation hint; resolves to `data` on a successful envelope and to null on a failed one or on any thrown error |
| `Auth.TokenStore.GetToken` | src/lib/auth.ts:20-23 | null outside a browser; in a browser, the stored token when the key is present and null otherwise |
| `Auth.TokenStore.IsLoggedIn` | src/lib/auth.ts:25-27 | logged in exactly when running in a browser with a non-empty stored token |
| `Auth.TokenStore.SaveToken` | src/lib/auth.ts:12-14 | in a browser the key is set to the token and nothing else in storage changes, so `getToken` returns it; outside a browser the call fails and storage is unchanged |
| `Auth.TokenStore.RemoveToken` | src/lib/auth.ts:16-18 | only the token key is removed; afterwards `getToken` is null and the user is logged out |
| `Auth.Login` | src/lib/auth.ts:8-9 | for a successful login whose token arrives as a JSON string (a failed envelope may carry any `data`), a POST of `{email, password}` to the login endpoint with the default headers, settling as `Receive`; what it returns is that string |
| `Auth.Signup` | src/lib/auth.ts:5-6 | a POST of `{email, username, password}` to the signup endpoint with the default headers, settling as `Receive` |
| `HomePage.BoardList` | src/app/page.tsx:41 | a null board list becomes `[]`; a string payload makes the page fail; a list is used as is |
| `HomePage.ArticlesOf` | src/app/page.tsx:53 | `data?.articles ?? []`: the list's articles, or `[]` for null or a string payload |
| `HomePage.NeedsDetailIffMissing` | src/app/page.tsx:60 | `needsDetail` holds exactly when the preview's content or thumbnail key is absent or empty |
| `HomePage.MergeFeatured` | src/app/page.tsx:69-73 | the detail's content and thumbnail replace the preview's only when present; every other field is the featured article's own |
| `HomePage.LoadFeed` | src/app/page.tsx:44-79 | a gallery fetches nothing and has no articles; any other board fetches page 1 (limit 6); when the first article lacks content or thumbnail, exactly its detail is fetched and merged into it, and the rest of the page is unchanged |
| `HomePage.LoadBoardFeeds` | src/app/page.tsx:40-83 | one feed per board, in board order; no boards when the list fetch fails; the page fails iff the board payload is a string |
| `HomePage.CommunityFeeds` | src/app/page.tsx:87 | the filter keeps exactly the community feeds and never lengthens the list |
| `HomePage.CommunityFeedsAppend` | src/app/page.tsx:87 | the filter distributes over concatenation, so it keeps the feeds' order |
| `HomePage.Home` | src/app/page.tsx:85-115 | the sidebar lists every feed's board in order; the sections are the community feeds in order, each with its articles (or `[]`) and its index |
| `HomePage.HomeShowsLoadedBoards` | src/app/page.tsx:85-115 | the page's sidebar is exactly the loaded board list, and every section is a community board |
| `HomePage.MergeWithFullDetail` | src/app/page.tsx:60-73 | a detail with non-empty content and thumbnail leaves the featured article no longer needing detail |
| `HomePage.EmptyDetailOverridesPreview` | src/app/page.tsx:71 | an empty-string detail content wins over the preview's content under `??`, so the merged article still needs detail |
| `HomePage.MergeWithoutDetail` | src/app/page.tsx:65-73 | a null or string detail leaves the featured article unchanged |
| `CommentSection.CountAllComments` | src/components/article/CommentSection.tsx:16-21 | the count is at least the number of root comments, and zero exactly when there are none |
| `CommentSection.CountOne` | src/components/article/CommentSection.tsx:16-21 | one comment counts itself plus its whole reply tree |
| `CommentSection.CountAppend` | src/components/article/CommentSection.tsx:16-21 | the count of a concatenation is the sum of the counts |
| `CommentSection.CountCons` | src/components/article/CommentSection.tsx:17-19 | the count of a list is its first comment, that comment's replies and the rest |
| `CommentSection.Indent` | src/components/article/CommentSection.tsx:30 | root comments have no margin; replies get 24 px per level, capped at 72 px from depth 3 on |
| `CommentSection.IndentMonotone` | src/components/article/CommentSection.tsx:30 | deeper replies are never indented less |
| `CommentSection.ItemRows` | src/components/article/CommentSection.tsx:23-48 | a `CommentItem` renders at least one row, and the first is the comment itself at its depth, with that depth's margin and the given parent author |
| `CommentSection.ListRows` | src/components/article/CommentSection.tsx:43-45 | a list renders at least one row per comment, and nothing exactly when it is empty |
| `CommentSection.ItemRowCount` | src/components/article/CommentSection.tsx:23-48 | a comment renders one row for itself and one for each comment of its reply tree |
| `CommentSection.ListRowCount` | src/components/article/CommentSection.tsx:84-89 | the number of rendered comments equals the count in the heading |
| `CommentSection.ItemRowsShape` | src/components/article/CommentSection.tsx:23-48 | every row is indented by its depth's rule and lies no shallower than its item; the item's own row is passed the parent author's name as its `parentAuthor` prop |
| `CommentSection.ListRowsShape` | src/components/article/CommentSection.tsx:43-45 | every row of a list lies no shallower than the list; a row at the list's depth is one of its comments and is passed the list's parent author as its `parentAuthor` prop |
| `CommentSection.ListRowsAtDepth` | src/components/article/CommentSection.tsx:43-45 | the rows rendered at a list's own depth are exactly the list's comments, in order: each comment once, its replies only deeper |
| `CommentSection.ListRowsCoverComments` | src/components/article/CommentSection.tsx:43-45 | every comment of a list gets a row at the list's depth, with that depth's margin and the list's parent author |
| `CommentSection.CommentSection.constructor` | src/components/article/CommentSection.tsx:50-53 | starts with the initial comments, an empty text box and not submitting |
| `CommentSection.CommentSection.TotalCount` | src/components/article/CommentSection.tsx:54 | the heading count is at least the number of root comments and zero exactly when there are none |
| `CommentSection.CommentSection.ShowsList` | src/components/article/CommentSection.tsx:84-92 | the list, rather than the empty-state text, is shown exactly when there is a root comment |
| `CommentSection.CommentSection.SubmitDisabled` | src/components/article/CommentSection.tsx:106 | the submit button is disabled exactly while submitting or while the text is blank |
| `CommentSection.CommentSection.Edit` | src/components/article/CommentSection.tsx:99 | typing replaces the text and changes nothing else |
| `CommentSection.CommentSection.HandleSubmit` | src/components/article/CommentSection.tsx:56-76 | logged out: an alert and no change; blank text: no change; otherwise it POSTs the trimmed text to the article's comments path with the default headers; success appends the new comment, raises the heading count by one plus its replies and clears the text; an `ApiError` alerts its message and keeps list and text; `submitting` ends false |
| `CommentSection.CommentSection.Settle` | src/components/article/CommentSection.tsx:64-75 | a returned comment is appended, raising the count by one plus its replies; any return clears the text; an `ApiError` alerts its message, any other error is silent, and both keep list and text; `submitting` ends false |
| `ArticleBody.Toggle` | src/components/article/ArticleBody.tsx:31-32 | a successful like flips the flag and moves the count by one in that direction |
| `ArticleBody.ToggleTwice` | src/components/article/ArticleBody.tsx:31-32 | two successful requests restore flag and count |
| `ArticleBody.ToggleKeepsOthersLikes` | src/components/article/ArticleBody.tsx:31-32 | the count net of this viewer's own like never changes |
| `ArticleBody.ArticleBody.constructor` | src/components/article/ArticleBody.tsx:18-20 | starts with the article's count, not liked, idle |
| `ArticleBody.ArticleBody.Click` | src/components/article/ArticleBody.tsx:22-30 | logged out: an alert and no change; while a request is in flight: nothing; otherwise sets `loading` and posts to the article's like path with no body |
| `ArticleBody.ArticleBody.Settle` | src/components/article/ArticleBody.tsx:29-37 | success toggles the state; an `ApiError` alerts its message and keeps the state; any failure keeps the state; `loading` ends false |
| `SearchBar.GetDetailLink` | src/components/home/SearchBar.tsx:105-108 | a post links to `/boards/{boardId}/posts/{id}`, any other hit to `/boards/{boardId}/articles/{id}` |
| `SearchBar.DetailLinkInjective` | src/components/home/SearchBar.tsx:105-108 | two hits with the same link have the same board, the same id and the same route kind |
| `SearchBar.SearchBar.constructor` | src/components/home/SearchBar.tsx:33-37 | starts empty, closed, idle, without a message |
| `SearchBar.SearchBar.DropdownVisible` | src/components/home/SearchBar.tsx:122 | the dropdown shows exactly when open and there are results or a non-empty message |
| `SearchBar.SearchBar.Edit` | src/components/home/SearchBar.tsx:117 | typing replaces the keyword and changes nothing else |
| `SearchBar.SearchBar.Focus` | src/components/home/SearchBar.tsx:118 | focusing opens the dropdown iff the keyword is not blank, and never closes it |
| `SearchBar.SearchBar.Dismiss` | src/components/home/SearchBar.tsx:39-53 | an outside click or Escape closes the dropdown and changes nothing else |
| `SearchBar.SearchBar.HandleSearch` | src/components/home/SearchBar.tsx:64-103 | a blank keyword clears the results and prompts, with no query; otherwise it queries the trimmed keyword with limit 5 and shows the results ("no results" iff empty), the server's message, or the generic error for a thrown error or missing results; always opens; `loading` ends false |
| `AuthModal.Utf16Length` | src/components/auth/AuthModal.tsx:122 | JavaScript's `.length` lies between the number of code points and twice that |
| `AuthModal.LoginValidation` | src/components/auth/AuthModal.tsx:85-88 | the login form passes exactly when the trimmed email and the password are non-empty; otherwise the one fixed message |
| `AuthModal.SignupValidation` | src/components/auth/AuthModal.tsx:112-130 | each message is reported exactly when its check is the first to fail: blank field, then mismatch, then length under 6, then terms; the form passes iff all checks pass |
| `AuthModal.SignupValidImpliesLoginValid` | src/components/auth/AuthModal.tsx:109-130 | credentials that pass the signup checks also pass the login check |
| `AuthModal.RequestFailure` | src/components/auth/AuthModal.tsx:98-103 | for a request that did not succeed: a failed envelope shows the server's message (or the client's generic text); a thrown error shows the dialog's own text |
| `AuthModal.AuthModal.constructor` | src/components/auth/AuthModal.tsx:34-43 | every field starts at its initial value |
| `AuthModal.AuthModal.ResetOnClose` | src/components/auth/AuthModal.tsx:67-80 | closing the dialog returns every field to its initial value |
| `AuthModal.AuthModal.OnModeChange` | src/components/auth/AuthModal.tsx:62-65 | switching forms clears both messages and nothing else |
| `AuthModal.AuthModal.ToggleShowPassword` | src/components/auth/AuthModal.tsx:218 | the eye button flips password visibility only |
| `AuthModal.AuthModal.HandleLoginSubmit` | src/components/auth/AuthModal.tsx:82-107 | a successful login's token arrives as a JSON string, while a failed envelope may carry any `data`; an invalid form only sets its message; otherwise POSTs the trimmed email and the password as typed to the login endpoint, with the default headers for the token read beforehand; success sets the stored token and leaves every other storage key as it was, calls `onAuthSuccess` and `onClose`; if saving throws, or the request fails, it shows the error instead; `loading` ends false |
| `AuthModal.AuthModal.HandleSignupSubmit` | src/components/auth/AuthModal.tsx:109-154 | a failed check only sets its message; otherwise POSTs the trimmed email and username and the password to the signup endpoint, with the default headers; success sets the notice, clears the login password and requests the login form without saving a token; failure shows the error; `loading` ends false |
| `AuthModal.SignupThenSwitchToLogin` | src/components/auth/AuthModal.tsx:142-144 | after a successful signup and the mode switch it requests, the success notice is gone |
| `RelativeTime.BucketOf` | src/shared/utils/time.ts:5-26 | the four buckets are disjoint and cover every difference: up to 1 min, under 1 h, under 24 h, otherwise; minutes lie in 1..59 and hours in 1..23, each the floor of the difference |
| `RelativeTime.BucketMonotone` | src/shared/utils/time.ts:5-18 | an older timestamp never lands in a finer bucket nor shows a smaller count in the same bucket |
| `RelativeTime.Render` | src/shared/utils/time.ts:6-26 | "방금 전"; or the count's decimal text followed by "분 전" or "시간 전", which splits back into count and unit; or the formatted month/day |
| `RelativeTime.FormatRelativeTime` | src/shared/utils/time.ts:1-27 | an unparsable timestamp is returned as is; otherwise "방금 전", "{m}분 전", "{h}시간 전" or the month/day text, by the difference |
| `RelativeTime.RenderInjective` | src/shared/utils/time.ts:6-18 | apart from the calendar form, different buckets or counts never render the same text |
| `ImageUrl.ToS3ImageUrl` | src/shared/utils/image.ts:3-6 | undefined exactly for a missing or empty key, else the base, a slash and the encoded key |
| `ImageUrl.UrlUnderBase` | src/shared/utils/image.ts:5 | every URL built starts with the base and a slash |
| `ImageUrl.UrlInjective` | src/shared/utils/image.ts:5 | with an injective encoder, different keys (the empty key included) never give the same result |

## Left out

- Network, JSON parsing and `localStorage` are inputs.
  - A `Response<T>` stands for the outcome of `fetch` plus `res.json()`.
  - `API_BASE_URL` is not modelled: endpoints are the paths after the base. `S3_IMAGE_BASE_URL` is the `base` parameter of `ImageUrl.ToS3ImageUrl`.
  - Fetch options that only steer caching (`cache: "no-store"`) are not modelled.
- `JSON.stringify`, `encodeURI` and `encodeURIComponent` are not modelled:
  - request bodies stay `Json` values;
  - `encodeURI` is a function parameter;
  - the search keyword is reported before encoding.
- `Date` parsing, `Date.now()` and the `Intl.DateTimeFormat("ko-KR")` month/day text with its dot clean-up are parameters. The parse is an `Option<int>` of milliseconds, `now` is an integer, and the formatter is a function.
- JavaScript numbers are modelled as unbounded integers. Floating point, `NaN` ids and counts beyond 2^53 are not modelled.
- Strings are sequences of Unicode code points. `Utf16Length` models `.length` for the signup password rule. Lone surrogates cannot be represented.
- React scheduling is collapsed:
  - each handler runs from its call to its settlement without interleaving;
  - effects are methods that the caller runs, so `OnModeChange` and `ResetOnClose` model the `mode` and `open` effects;
  - state setters take effect at once.
  - The exception is `ArticleBody`, where `Click` and `Settle` separate the two halves of `handleLike` around its `await`.
- Callbacks to the parent (`onClose`, `onAuthSuccess`, `onChangeMode`) are recorded in the handlers' effect results. The parent's reaction is not modelled.
- `alert` is not modelled: the text a handler would alert is its `alert` result.
- DOM behaviour is not modelled:
  - the listeners are modelled only by `SearchBar.Dismiss`;
  - the dialog's Escape and overlay-click handlers just call `onClose`;
  - markup, CSS classes, icons and `toLocaleString` are not modelled.
- The dialog's field `onChange` setters (email, both passwords, username, terms checkbox) are not modelled, because each assigns a single field. The `useMemo` title and the submit buttons' `disabled={loading}` are not modelled either.
- `AuthModal.AuthModal.HandleLoginSubmit` and `Auth.Login` require a successful login envelope's `data` to be a `Str`. Its payload type is `string`, and a JSON string always decodes to `Str`; a successful `Typed` login payload is a modelling artefact, not a response the server can send. A failed login envelope may carry any `data`, and one whose `data` is not a string shows the generic request text, as in the source.
- `CommentSection.CommentSection.HandleSubmit`: when a successful post returns a string payload, the source appends that string to the comment list. The model keeps the list unchanged, because a comment list of `CommentResponse` values cannot hold a string.
- `CommentSection.CommentSection.Settle`: when the returned data is a string, the source appends that string to the comment list. The model keeps the list unchanged, because a comment list of `CommentResponse` values cannot hold a string.
- `comment.replies ?? []` is not modelled as a null: replies are always a sequence. An `articles` field that is null inside a successful list payload is not modelled either.
- `HomePage.LoadBoardFeeds` returns `None` where the page's render would throw. The error page Next.js shows is not modelled.
- The article detail page under `src/app/boards/` and the other home components (header, footer, sidebar and section markup) are not part of this model.
