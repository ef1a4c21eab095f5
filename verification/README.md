# Minecraft mod library front-end: client-side logic in Dafny

The site is a React front-end over a hosted database service. It has a public
feed, category pages, search and a "watch an ad to unlock" download box, plus
an admin dashboard behind a fixed password. Nearly all persistence, search
and counting happens in the backend. This project models the small pieces of
logic that run in the browser, as pure functions over immutable records:

- **Admin session gate** (`Auth`, `auth.dfy`): `checkAdmin`, `login` and
  `logout` over `{admin, loading, admin_token}`, with `isAuthenticated`
  derived from `admin`.
- **Premium unlock** (`Premium`, `premium.dfy`): the one-way `showDownload`
  flag, driven by ad clicks and the timers they start, and the two render
  branches.
- **Data-access wrappers** (`Api`, `api.dfy`): the page window of
  `getPostsByCategory`, the error fallbacks of `getPostsByCategory` and
  `searchPosts`, `getAnalytics`, and `useSupabase`.
- **Post editor** (`PostForm`, `post_form.dfy`): the initial form,
  adding and removing keywords, uploading and removing images, choosing a
  category, and the submit that picks update or insert.
- **Admin dashboard** (`Dashboard`, `dashboard.dfy`): loading data, the
  `totalStats` sums, deleting a post, the category label and the description
  preview.
- **Home page** (`Home`, `home.dfy`): the list fallbacks and the
  per-category tile counts.
- **Navigation bar** (`Navbar`, `navbar.dfy`): the search guard and target
  path, and which admin controls are shown.

Shared pieces are in four modules. `Schema` holds the table rows, the five
categories and the backend reply shape. `Text` is JavaScript's `trim`.
`Hooks` is the context-hook guard. `Wrappers` holds `Option` and `Result`.

Every backend call is a parameter, never a call. Its reply is a
`Reply<T> = Answer(data, error) | Thrown(reason)`: the client's
`{ data, error }` pair, or a rejected promise. `Fails()` says when the site's
`if (error) throw error` idiom throws. Side effects are returned as plain
values, in order: lookups, notifications, `window.open`, timers and
navigation targets. JavaScript truthiness is kept where the code relies on
it. A stored token of `""` counts as no token, and so does an edit id of
`""`.

Notes on the code as written:

- A failed `login` leaves the whole state unchanged, so an admin who is
  already signed in stays signed in.
- The locked unlock view does not render the download URL at all. The
  ternary renders only the ad button. `Premium.Render` states that the
  locked view carries no URL.
- `login` checks for the absence of an error, not for the presence of a row.
  `Auth.LoginWithoutRow` shows that a reply with neither returns `true`
  while leaving nobody signed in, and it signs out an admin who was signed
  in. The backend's `.single()` never sends such a reply
  (`Reply.WellFormedSingle`). Under that condition `Auth.LoginSignsIn`
  proves the expected outcome.
- `handleImageUpload` has no `try`. A rejected upload ends the handler
  before the form is updated, so no URL from that batch is added, not even
  those of files stored before it.

## Model

| member | source | states |
|---|---|---|
| Auth.Mount | AuthContext.jsx:8-13 | the provider starts with no admin, `loading` true and whatever token storage holds |
| Auth.IsAuthenticated | AuthContext.jsx:72 | `isAuthenticated` is `!!admin`: true exactly when an admin row is held |
| Auth.CheckAdmin | AuthContext.jsx:15-33 | with no truthy token, nothing is looked up and `admin` is kept. Otherwise the token is looked up by password hash, and `admin` becomes the row only if the reply has no error and has data. `loading` always ends false, the token is never written, and nothing is shown to the user |
| Auth.Login | AuthContext.jsx:35-59 | returns true iff the password is the fixed secret and the lookup did not fail. Only then are the token (the password itself) and `admin` written. A wrong password makes no lookup and yields only the wrong-password notice. Any failure leaves the state unchanged |
| Auth.Logout | AuthContext.jsx:61-65 | from any state, removes the token and the admin, so `isAuthenticated` is false afterwards |
| Auth.LoginSignsIn | AuthContext.jsx:37-50 | with a well-formed single-row reply, logging in with the secret signs in with the returned row and stores the secret as the token |
| Auth.LoginWithoutRow | AuthContext.jsx:45-50 | from any state, a reply with no error and no row makes `login` return true while leaving nobody signed in. An admin who was signed in is signed out |
| Auth.RunKeepsInvariants | AuthContext.jsx:15-65 | over any sequence of start-up checks, logins and logouts, an admin is signed in only while a truthy token is stored. The token is always the mount-time value, the secret, or absent |
| Auth.LoadingClearedForGood | AuthContext.jsx:9-32 | once a start-up check has run, `loading` is false in every later state |
| Auth.LogoutEndsSession | AuthContext.jsx:61-72 | whatever happened before, a logout leaves `isAuthenticated` false and no token stored |
| Auth.UseAuth | AuthContext.jsx:82-88 | the hook yields the provider's value, and fails naming `useAuth` when there is no provider |
| Auth.UseAuthRoundTrip | AuthContext.jsx:82-88 | inside a provider the hook returns exactly its value, and outside one it fails naming `useAuth` |
| Premium.Init | PremiumDownload.jsx:5 | a freshly shown item is locked, with no timer pending |
| Premium.Handle | PremiumDownload.jsx:7-14 | no event clears the flag. A click leaves it unchanged, opens the `adLink` prop unchanged in a new window and schedules a 3000 ms timer. A timer firing sets the flag |
| Premium.RevealNeedsClickThenFire | PremiumDownload.jsx:7-14 | starting fresh, the link is revealed exactly when some timer fired after some click. Until then, every click is still waiting on its timer |
| Premium.RevealIsPermanent | PremiumDownload.jsx:11-13 | once revealed, the link stays revealed whatever clicks or firings follow |
| Premium.ClicksAloneNeverReveal | PremiumDownload.jsx:9-10 | any number of clicks without a timer firing leaves the link hidden |
| Premium.Render | PremiumDownload.jsx:25-51 | exactly one branch renders: the ad button (carrying no URL) while locked, and the anchor to the unmodified `downloadUrl` in a new tab once revealed |
| Premium.RenderedLinkNeedsClickThenFire | PremiumDownload.jsx:7-51 | over any history of a freshly shown item, the download anchor is rendered exactly when some timer fired after some click, and the URL-free ad button otherwise |
| Premium.ClickThenWaitScenario | PremiumDownload.jsx:9-13 | right after one click the view is still the ad button. After that click's timer fires, it is the download anchor |
| Api.PageWindow | SupabaseContext.jsx:28-30 | the window holds exactly `limit` rows and starts at `(page-1)*limit`, so it is non-negative for page at least 1 and starts at row 0 on page 1 |
| Api.DefaultWindow | SupabaseContext.jsx:28-30 | the defaults `page = 1`, `limit = 12` ask for rows 0 to 11 |
| Api.PagesContiguous | SupabaseContext.jsx:29-30 | each page starts right after the previous page ends |
| Api.PagesDisjoint | SupabaseContext.jsx:29-30 | for a positive limit, an earlier page ends before a later page starts |
| Api.EveryRowOnOnePage | SupabaseContext.jsx:29-30 | every row number lies in the window of page `n / limit + 1` and of no other page |
| Api.RowsIn | SupabaseContext.jsx:38 | the rows `.range(from, to)` returns are never more than the result has, and a window inside the result yields exactly `to - from + 1` rows |
| Api.PagesTile | SupabaseContext.jsx:29-38 | pages 1 to `n`, concatenated, are exactly the first `n * limit` rows in order, with nothing skipped or repeated |
| Api.GetPostsByCategory | SupabaseContext.jsx:28-46 | asks for the category and the page window, with omitted arguments taking the defaults. A failure yields `{data: [], total: 0}` and a notice. Otherwise it passes `data` and `count` through |
| Api.SearchPosts | SupabaseContext.jsx:14-25 | a failed search yields `[]` and a notice. Otherwise it yields the procedure's data unchanged |
| Api.ListWrappersNullOnlyFromBackend | SupabaseContext.jsx:14-46 | the list wrappers return `null` data only when the backend answered with neither an error nor data. Every failure becomes an empty list |
| Api.GetAnalytics | SupabaseContext.jsx:59-68 | throws exactly when the query fails, and otherwise returns its data |
| Api.UseSupabase | SupabaseContext.jsx:86-92 | the hook fails, naming `useSupabase`, exactly when no provider value exists, and otherwise returns that value |
| Api.UseSupabaseRoundTrip | SupabaseContext.jsx:86-92 | inside a provider the hook returns exactly its value, and outside one it fails naming `useSupabase` |
| PostForm.InitialForm | CreatePost.jsx:12-22 | the form starts in category `mods` with `is_premium` false, empty keywords and images, empty text fields and version list `["1.20.1"]` |
| PostForm.Splice1 | CreatePost.jsx:216-217 | `splice(idx, 1)` on a copy. It removes element `idx` when in range, counts a negative index from the end (clamped to the first element), removes nothing past the end, and never adds elements |
| PostForm.Splice1RemovesOne | CreatePost.jsx:215-218 | removing a valid index lowers the length by one, keeps the elements before and after it in order, and drops exactly that element from the multiset |
| PostForm.StoredUrls | CreatePost.jsx:68-80 | the URLs kept from a batch of uploads are never more than the files |
| PostForm.KeyPress | CreatePost.jsx:192-201 | a keyword is added iff the key is Enter and the text is not blank. The keyword is the trimmed text (non-empty, already trimmed), appended at the end, and no other field changes. Any other key press changes nothing |
| PostForm.RemoveKeyword | CreatePost.jsx:215-219 | deletes exactly keyword `idx` and keeps the rest in order. No other field changes, and no keyword is invented |
| PostForm.RemoveImage | CreatePost.jsx:260-264 | deletes exactly image `idx` and keeps the rest in order. No other field changes |
| PostForm.SelectCategory | CreatePost.jsx:126-146 | the chosen radio's value, which is one of the five category keys, becomes the category, and nothing else changes |
| PostForm.StoredUrlsAppend | CreatePost.jsx:68-80 | the URLs of a batch of uploads are the URLs of its parts, in file order |
| PostForm.StoredUrlsComplete | CreatePost.jsx:68-80 | a URL is kept iff its file was stored, and every file is kept iff every upload succeeded |
| PostForm.HandleImageUpload | CreatePost.jsx:64-86 | the files are uploaded one by one. If no upload rejects, exactly the URLs of the stored files are appended, in file order, after the existing images. A rejected upload leaves the form unchanged |
| PostForm.Submit | CreatePost.jsx:32-62 | takes the update path (for that id, with the whole form) exactly when a truthy id is present, and otherwise inserts the form as a single row. It returns to the dashboard exactly on success, shows the error notice exactly on failure, and always ends with `loading` false |
| PostForm.SubmitWritesSoundForm | CreatePost.jsx:32-54 | whatever the editing history, the row a submit updates or inserts is a form with a known category, `is_premium` false, the default versions and clean keywords |
| PostForm.ApplyKeepsSound | CreatePost.jsx:12-264 | every handler keeps the category one of the five, `is_premium` false, the version list at its default, and every keyword non-empty and trimmed |
| PostForm.RunKeepsSound | CreatePost.jsx:12-264 | every form reachable from the initial one by any sequence of edits satisfies those invariants |
| Dashboard.Initial | AdminDashboard.jsx:12-14 | the page starts with null analytics, no posts and the spinner on |
| Dashboard.LoadData | AdminDashboard.jsx:22-40 | if analytics fails, the post list is never loaded and stays empty. Otherwise analytics is stored as returned and a null post list becomes `[]`. The spinner always stops |
| Dashboard.LoadedStats | AdminDashboard.jsx:22-72 | after loading, analytics is what `getAnalytics` returned, or null if it threw. The stat totals are undefined after a failed load and are the column sums of the delivered days otherwise |
| Dashboard.ReduceAddsSums | AdminDashboard.jsx:68-72 | the left-to-right reduce adds each column's sum to the seed |
| Dashboard.TotalStats | AdminDashboard.jsx:68-72 | undefined exactly when analytics is null. Otherwise each total is the sum of its per-day column, so empty analytics give zeros |
| Dashboard.AddDay | AdminDashboard.jsx:68-72 | the reducer adds one day's page views, visitors and downloads to the running totals |
| Dashboard.Reduce | AdminDashboard.jsx:68-72 | `reduce` folds the days left to right from the seed |
| Dashboard.TotalStatsAddDay | AdminDashboard.jsx:68-72 | one more day adds exactly its own page views, visitors and downloads |
| Dashboard.WithoutId | AdminDashboard.jsx:54 | a post remains iff it was there and has a different id |
| Dashboard.WithoutIdAppend | AdminDashboard.jsx:54 | the filter works piecewise, so the remaining posts keep their order |
| Dashboard.WithoutAbsentId | AdminDashboard.jsx:54 | when no post has the id, the list is unchanged |
| Dashboard.DeletePost | AdminDashboard.jsx:42-58 | a declined confirmation sends nothing and changes nothing. A backend failure leaves the list unchanged, with a notice. A success removes every post with that id and keeps only posts that were already there |
| Dashboard.CategoryLabel | AdminDashboard.jsx:173-177 | the label is non-empty exactly for the five known categories, where it is that category's own label |
| Dashboard.LabelsDistinct | AdminDashboard.jsx:173-177 | different categories have different labels |
| Dashboard.Preview | AdminDashboard.jsx:162 | the preview is the first `min(length, 50)` characters of the description followed by `...` |
| Home.LoadPosts | Home.jsx:21-38 | null query results become empty lists, and query errors are ignored. A rejected call leaves both lists as they were |
| Home.LoadedTiles | Home.jsx:21-76 | after loading, every tile count is bounded by the loaded list, and a null `latest` result shows five zero counts |
| Home.CountCategory | Home.jsx:43-71 | a category count is the number of posts with that key, never more than the list length |
| Home.CountsPartition | Home.jsx:40-76 | the five tile counts plus the posts with any other category make up all the latest posts |
| Home.CountsSumBound | Home.jsx:40-76 | the five counts sum to at most the number of latest posts, with equality exactly when every post has one of the five categories |
| Home.Tiles | Home.jsx:40-76 | one tile per category in order. Each count is the number of latest posts with that category key (never more than the list length), and each tile links to `/category/<key>` |
| Text.Trim | Navbar.jsx:22 | the trimmed string neither starts nor ends with whitespace |
| Text.TrimIsInfix | CreatePost.jsx:193 | the trimmed string is an infix of the input with only whitespace around it |
| Text.TrimEmptyIffBlank | Navbar.jsx:22 | a string trims to empty exactly when all its characters are whitespace |
| Text.TrimIdempotent | CreatePost.jsx:197 | trimming an already trimmed string changes nothing |
| Schema.CategoryOf | CreatePost.jsx:24-30 | a key maps to the category with that key, and to nothing when no category has it |
| Navbar.SearchTarget | Navbar.jsx:20-25 | navigation happens exactly once when the query has a non-whitespace character, and never otherwise. The target is `/search?q=` followed by the encoding of the untrimmed query |
| Navbar.ControlsFor | Navbar.jsx:87-110 | the dashboard and logout buttons show exactly when `isAuthenticated` holds, and the login link otherwise |
| Navbar.LogoutShowsLoginLink | Navbar.jsx:95-110 | after a logout the navbar shows the login link |
| Navbar.LoginShowsDashboard | Navbar.jsx:87-94 | after a successful login with a well-formed reply the navbar shows the dashboard and logout buttons |

## Left out

- All backend query builders, procedure calls and storage uploads. Their
  replies are parameters. Incidental query details are not modelled: the
  ordering, the `.limit(n)` of the home and analytics queries, and the
  posts query's own filtering.
- `incrementViews` and `incrementDownloads` (SupabaseContext.jsx:49-56): one
  remote procedure call each, with no client-side logic.
- Toasts, `console.error`, `window.confirm` and `navigate` are recorded as
  effect values or passed in as booleans. The notification texts are not
  modelled.
- `encodeURIComponent` is the parameter `encode` of `Navbar.SearchTarget`.
  `toLocaleString`, `toLocaleDateString` and the `Date.now()` file names are
  not modelled. An uploaded file's public URL comes in with its upload reply.
- Real timers and asynchronous interleaving. Events run one after another,
  and a timer firing is an explicit event. So `handleImageUpload` and
  `deletePost`, which close over the `formData` or `posts` of the render
  that started them, are modelled as if nothing else ran in between.
- Premium.Handle: the 3000 ms delay is a constant carried by the scheduled
  timer, not a clock. The model counts pending timers rather than measuring
  time.
- Premium.Handle: a timer firing when none is pending cannot happen in the
  browser. The model treats it as a no-op so that event sequences are total.
- JavaScript numbers are unbounded integers here. Floating-point rounding of
  large analytics sums is not modelled.
- `substring` and `trim` work on UTF-16 code units in JavaScript. Here they
  work on Unicode scalar values, which differ only for characters outside
  the Basic Multilingual Plane.
- The browser's default action after an Enter that `KeyPress` does not
  handle (an Enter on a blank keyword field submits the form) is not
  modelled. `KeyOutcome.handled` records whether it was suppressed.
- The edit route opens with the initial form; it does not load the stored
  post (CreatePost.jsx:12-22, 37-42). `PostForm.Submit` sends whatever the
  form holds.
- Page layout, styling, animations, carousels, App.jsx routing,
  ProtectedRoute, tailwind.config.js and AdBanner.jsx: markup and
  configuration with no logic.
