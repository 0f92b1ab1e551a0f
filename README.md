# MoviesApp core in Dafny

MoviesApp is a browser movie catalogue. It lists popular titles, lets the
visitor browse by genre, shows a detail page per movie, keeps a simulated
sign-in session in local storage and keeps favourites. Almost all of it is
markup. This project models the decisions the components and services make
and proves what they promise:

- the sign-in session (`AuthContext`): startup restore, login, register,
  logout and profile update over `isLoggedIn`, `user`, `loading` and the
  `"user"` storage slot;
- the sign-in / registration form (`LoginRegister`): its validation chain,
  the record it hands to the session, field edits, mode switches and the
  delayed submission;
- the movie tile (`MovieCard`): the click / double-click gesture, add-if-absent
  on the `"favouriteMovies"` list, and the favourite button;
- numbered pagination, shared by the category browser (`Categories`) and the
  single-category page (`CategoryPage`), and that page's genre lookup by
  `parseInt` of the route parameter;
- the trailer lookup (`FetchMovieTrailer`) and the popular listing
  (`FetchPopularMovies`);
- the display fallbacks of the two detail pages (`MovieDescription`,
  `Description`) and the featured banner (`FeaturedFilm`);
- the auth-driven gates (`AuthSync`, `Profile`, `ProtectedRoute`).

Components that keep state (`AuthContext`, `LoginRegister`, `MovieCard`,
`Categories`, `CategoryPage`) are classes whose fields are that state. Where
an operation is specified by a pure transition function (the session), the
method's postcondition ties the new state to that function, and the lemmas
are stated about the function. The rest are functions.

These things are inputs rather than computations:

- HTTP responses (a failed request is `None`, `RequestFailed` or `PageFailed`);
- what storage holds, as parse-ok / parse-fail / absent;
- whether a storage write succeeds (`writeOk`);
- timestamps and the release year;
- whether a movie is a favourite.

Timers are explicit events: a click, then the timer firing or the 500 ms
delay elapsing.

Shared pieces:

- `Text` models the JavaScript string built-ins the code relies on:
  - `/trailer/i.test`;
  - `split("@")[0]`;
  - `${n}` for an integer;
  - `parseInt` without a radix.
- `Movies` holds the movie record and the fallbacks both detail pages use.
- `Pagination` holds the page arithmetic that both category views repeat line
  for line.

Behaviour of the code that the model keeps as written:

- Popular listing. A failed page is logged and rethrown
  (`src/services/fetchPopularMovies.js:29-32`), so the caller gets a rejection
  rather than an empty list. `FetchPopularMovies.FetchPopularMovies` returns a
  Failure in that case.
- Missing image path. When a movie has neither a backdrop nor a poster path,
  the featured banner still builds `.../originalnull` or
  `.../originalundefined` (`src/components/FeaturedFilm.jsx:42-44`).
  `FeaturedFilm.NoImagePathStillGivesUrl` states this.
- Favourites storage. The tile reads and writes one global
  `"favouriteMovies"` key, shared by every user of the browser
  (`src/components/MovieCard.jsx:16-27`).

## Model

| member | source | states |
|---|---|---|
| AuthContext.AfterRestore | src/context/AuthContext.jsx:12-25 | a parseable stored value becomes the user and signs in (a stored `null` signs in with no user); an unparseable one is removed and the session stays signed out; loading ends in every case |
| AuthContext.AfterLogin | src/context/AuthContext.jsx:27-44 | on a successful write, storage and memory both hold the input plus `loginTime`, the session is signed in and the result is true; a failed write returns false and changes nothing |
| AuthContext.AfterRegister | src/context/AuthContext.jsx:46-64 | as login, with both `loginTime` and `registrationTime` added; a failed write returns false and changes nothing |
| AuthContext.AfterLogout | src/context/AuthContext.jsx:66-76 | the `"user"` key is gone, the user is null and the session is signed out; loading is untouched |
| AuthContext.AfterUpdate | src/context/AuthContext.jsx:78-90 | the new user has the old user's fields overridden by the given ones (no old user: just the given ones), is persisted exactly, and `isLoggedIn` is unchanged; a failed write changes nothing |
| AuthContext.StartupEndsLoading | src/context/AuthContext.jsx:9-25 | from any stored value, startup ends with loading false; a corrupt value leaves a signed-out session with the key removed; an absent or empty value leaves it signed out |
| AuthContext.MirroredPreserved | src/context/AuthContext.jsx:34-35 | every operation keeps storage holding exactly the in-memory user whenever there is one (writes precede state updates) |
| AuthContext.ReloadRestoresUser | src/context/AuthContext.jsx:13-18 | a reload from what storage holds signs the same user back in |
| AuthContext.LoginSurvivesReload | src/context/AuthContext.jsx:34-36 | after a successful login a reload restores that user, signed in |
| AuthContext.LogoutSurvivesReload | src/context/AuthContext.jsx:68-70 | after logout a reload stays signed out with no user |
| AuthContext.LoggedInWithoutUser | src/context/AuthContext.jsx:16-18 | a stored literal `null` signs in with no user, so `isLoggedIn` does not imply a user |
| AuthContext.UserWithoutLogin | src/context/AuthContext.jsx:78-82 | an update after logout leaves a user in memory while signed out, so a user does not imply `isLoggedIn` |
| AuthContext.AuthProvider.constructor | src/context/AuthContext.jsx:7-9 | starts signed out, with no user and loading |
| AuthContext.AuthProvider.Restore | src/context/AuthContext.jsx:12-25 | the new state is `AfterRestore` of the old |
| AuthContext.AuthProvider.Login | src/context/AuthContext.jsx:27-44 | the new state and result are `AfterLogin` of the old state |
| AuthContext.AuthProvider.Register | src/context/AuthContext.jsx:46-64 | the new state and result are `AfterRegister` of the old state |
| AuthContext.AuthProvider.Logout | src/context/AuthContext.jsx:66-76 | the new state is `AfterLogout` of the old |
| AuthContext.AuthProvider.UpdateUser | src/context/AuthContext.jsx:78-90 | the new state and result are `AfterUpdate` of the old state |
| LoginRegister.ValidateForm | src/components/LoginRegister.jsx:22-40 | null exactly when email and password are non-empty, a name is given in register mode, the email has an `@` and the password has at least 3 characters; each message is returned exactly when its check is the first to fail |
| LoginRegister.FirstFailure | src/components/LoginRegister.jsx:22-40 | the message of the first failing check in order, or null exactly when none fails |
| LoginRegister.ValidateIsFirstFailure | src/components/LoginRegister.jsx:22-40 | validation equals "first failing check decides"; the guards that repeat an earlier check change nothing |
| LoginRegister.DisplayName | src/components/LoginRegister.jsx:56 | the typed name if any, else the email up to its first `@`: the whole email when it has no `@`, otherwise the `@`-free prefix followed by the first `@` |
| LoginRegister.LoginNameFromEmail | src/components/LoginRegister.jsx:55-58 | a valid login without a name sends the email unchanged and a name such that email = name + "@" + rest |
| LoginRegister.WithField | src/components/LoginRegister.jsx:15-20 | the named field takes the value and the other two keep theirs |
| LoginRegister.LoginForm.constructor | src/components/LoginRegister.jsx:7-13 | starts in login mode with empty fields and nothing submitting |
| LoginRegister.LoginForm.HandleInputChange | src/components/LoginRegister.jsx:15-20 | only the named field changes; mode and submission state are kept |
| LoginRegister.LoginForm.SelectMode | src/components/LoginRegister.jsx:110-121 | the Login and Register tabs set the mode and keep the fields |
| LoginRegister.LoginForm.HandleToggleMode | src/components/LoginRegister.jsx:94-97 | the mode flips and all three fields become empty |
| LoginRegister.LoginForm.Submit | src/components/LoginRegister.jsx:42-51 | the result is the validation message; on failure nothing changes, so no login or registration can follow; on success submission starts with the login or registration record |
| LoginRegister.LoginForm.DelayElapsed | src/components/LoginRegister.jsx:54-65 | the pending record goes to login or register (the session moves as `AfterLogin`/`AfterRegister`); on success the fields are cleared; submission ends either way |
| MovieCard.StoredList | src/components/MovieCard.jsx:16-17 | an absent key or falsy JSON reads as the empty list; a stored array is read as is; invalid text makes the read throw |
| MovieCard.ContainsId | src/components/MovieCard.jsx:18-20 | true exactly when some stored movie has the id |
| MovieCard.DoubleClick | src/components/MovieCard.jsx:15-33 | if the id is absent the list becomes the old list with the movie appended; if present, storage is not rewritten; an unreadable list is an error and storage is untouched |
| MovieCard.DoubleClickKeepsIdsUnique | src/components/MovieCard.jsx:18-27 | a list with unique ids keeps unique ids after a double click |
| MovieCard.DoubleClickIdempotent | src/components/MovieCard.jsx:18-33 | a second double click on the same movie changes nothing and reports it is already there |
| MovieCard.FirstFavourite | src/components/MovieCard.jsx:16-27 | with no key stored, a double click stores exactly this one movie |
| MovieCard.DescriptionPath | src/components/MovieCard.jsx:37 | the path starts with `/description/` |
| MovieCard.DescriptionPathNamesMovie | src/components/MovieCard.jsx:37 | reading the number after `/description/` gives the movie's id back |
| MovieCard.FavouriteButtonClick | src/components/MovieCard.jsx:5-70 | the callback receives exactly this movie, the default callback does nothing, and the link is not followed |
| MovieCard.MovieCardState.constructor | src/components/MovieCard.jsx:5-7 | no timer pending |
| MovieCard.MovieCardState.HandleClick | src/components/MovieCard.jsx:9-42 | with no timer pending a timer starts and storage is untouched; with one pending it is cancelled and the storage change is `DoubleClick` |
| MovieCard.MovieCardState.TimerFires | src/components/MovieCard.jsx:36-39 | navigates to `/description/<id>` and clears the pending timer; storage is untouched |
| Pagination.CeilDiv | src/components/Categories.jsx:42 | the least multiple count covering the dividend (`Math.ceil(a / b)`) |
| Pagination.TotalPagesAfterLoad | src/components/Categories.jsx:42 | min(25, ceil(500/20)) is 25, and 25 pages of 20 cover 500 movies |
| Pagination.PageAfterChange | src/components/Categories.jsx:56-61 | the target page when 1 ≤ target ≤ total, else the current page; a page within [1, total] stays within it |
| Pagination.ArrowsDisabledExactlyWhenRefused | src/components/Categories.jsx:143-172 | Previous is disabled exactly when page − 1 would be refused, and Next exactly when page + 1 would be |
| Pagination.DropAbove | src/components/Categories.jsx:150-152 | keeps exactly the numbers not above the total |
| Pagination.DropAboveConsecutive | src/components/Categories.jsx:150-152 | on consecutive numbers the guard keeps a prefix |
| Pagination.PageWindowShape | src/components/Categories.jsx:150-152 | the buttons are min(5, total) consecutive pages from max(1, page − 2), cut at the total, all in [1, total] |
| Pagination.CurrentPageInWindow | src/components/Categories.jsx:150-152 | the current page always has a button |
| Categories.CategoriesState.constructor | src/components/Categories.jsx:9-14 | page 1 of 1, no genres, no selection, no movies |
| Categories.CategoriesState.GenresLoaded | src/components/Categories.jsx:17-28 | a fetched list replaces the genres; a failure keeps them; loading ends |
| Categories.CategoriesState.HandleGenreSelect | src/components/Categories.jsx:50-54 | the genre is selected, the page resets to 1 and the movie list empties |
| Categories.CategoriesState.HandlePageChange | src/components/Categories.jsx:56-61 | the page becomes `PageAfterChange`, so it stays within [1, total] |
| Categories.CategoriesState.MoviesLoaded | src/components/Categories.jsx:37-48 | a fetched page replaces the list wholesale and sets 25 pages; a failure keeps both; loading ends |
| Categories.CategoriesState.PageButtons | src/components/Categories.jsx:150-152 | at most 5 buttons, each a page that exists, the current page among them |
| CategoryPage.FindGenre | src/components/CategoryPage.jsx:24 | the first genre whose id equals the parsed route id; none when no id matches or the route id is NaN |
| CategoryPage.RouteFindsGenre | src/components/CategoryPage.jsx:24 | a route built from a genre's id finds that genre when it is the first with that id |
| CategoryPage.CategoryPageState.constructor | src/components/CategoryPage.jsx:12-15 | no movies, empty name, page 1 of 1 |
| CategoryPage.CategoryPageState.CategoryLoaded | src/components/CategoryPage.jsx:17-40 | a failed genre fetch sets nothing; a matching genre sets the name (no match keeps the previous name); fetched movies replace the list and set 25 pages; a failed movie fetch keeps both; loading ends |
| CategoryPage.CategoryPageState.HandlePageChange | src/components/CategoryPage.jsx:45-50 | the page changes only to a target within [1, total] |
| CategoryPage.CategoryPageState.PageButtons | src/components/CategoryPage.jsx:103-105 | at most 5 consecutive buttons from max(1, page − 2), none above the total, the current page among them |
| Text.ContainsIgnoringCase | src/services/fetchMovieTrailer.js:20 | true exactly when the pattern occurs at some offset, ignoring ASCII letter case |
| Text.BeforeFirst | src/components/LoginRegister.jsx:56 | a prefix of the text without the separator, followed by the separator when shorter than the text |
| Text.IntToDecimal | src/components/MovieCard.jsx:37 | non-empty text starting with a digit for a non-negative number and with `-` for a negative one |
| Text.ParseIntOfDecimal | src/components/CategoryPage.jsx:24 | `parseInt` reads back the decimal text of any integer, ignoring non-digit text after it |
| Text.ParseIntSkipsWhitespace | src/components/CategoryPage.jsx:24 | leading white space does not change what `parseInt` reads |
| Text.ParseIntWithoutDigits | src/components/CategoryPage.jsx:24 | text without a decimal digit reads as NaN |
| FetchMovieTrailer.FindTrailer | src/services/fetchMovieTrailer.js:19-22 | the first video in list order on YouTube whose type contains "trailer" in any case; null exactly when there is none |
| FetchMovieTrailer.FirstTrailerWins | src/services/fetchMovieTrailer.js:19-21 | the first trailer in the list is the one chosen, whatever follows |
| FetchMovieTrailer.RequestUrl | src/services/fetchMovieTrailer.js:4-16 | no request exactly when the normalised id is falsy; otherwise the movie endpoint, then the interpolated id, then `/videos` |
| FetchMovieTrailer.FetchMovieTrailer | src/services/fetchMovieTrailer.js:3-27 | never rejects; a falsy id, a failed request or missing `results` give null; otherwise the first trailer of the results |
| FetchMovieTrailer.FetchMovieTrailerAsWritten | src/services/fetchMovieTrailer.js:3-27 | rejects exactly for a `null` argument; any trailer returned is a YouTube trailer |
| FetchMovieTrailer.NullArgumentRejects | src/services/fetchMovieTrailer.js:4-5 | with `null` the code as written rejects while the corrected lookup gives null |
| FetchMovieTrailer.AsWrittenAgreesElsewhere | src/services/fetchMovieTrailer.js:4 | on every other argument the code as written and the corrected lookup agree |
| FetchMovieTrailer.ObjectOrValueSame | src/services/fetchMovieTrailer.js:4 | passing a movie or its id gives the same request and the same result |
| FetchPopularMovies.RequestedUrls | src/services/fetchPopularMovies.js:14-17 | exactly the popular-endpoint URLs of pages 1, 2 and 3, in that order |
| FetchPopularMovies.AllPages | src/services/fetchPopularMovies.js:20 | every page's results in request order exactly when no page failed |
| FetchPopularMovies.ConcatIsFlatten | src/services/fetchPopularMovies.js:23-25 | the reduce/concat left fold equals reading page by page, each page whole and in order |
| FetchPopularMovies.FlattenKeepsEverything | src/services/fetchPopularMovies.js:23-25 | the join has every entry of every page, same length and same multiset; nothing is deduplicated |
| FetchPopularMovies.FetchPopularMovies | src/services/fetchPopularMovies.js:3-33 | fails exactly when one of pages 1 to 3 fails; no partial list is returned |
| FetchPopularMovies.PopularIsThreePagesInOrder | src/services/fetchPopularMovies.js:20-25 | the listing is page 1 ++ page 2 ++ page 3, its length is the sum of theirs and duplicates across pages are kept |
| FetchPopularMovies.SixtyFromThreeFullPages | src/services/fetchPopularMovies.js:13-25 | three full pages of 20 give 60 movies |
| FetchPopularMovies.OnlyFirstThreePages | src/services/fetchPopularMovies.js:14-17 | responses to pages other than 1 to 3 never matter |
| Movies.DisplayTitle | src/components/MovieDescription.jsx:44 | `original_title` if non-empty, else `title` if non-empty, else "Untitled"; never empty |
| Movies.DisplayOverview | src/components/MovieDescription.jsx:45 | the overview if non-empty, else "No description available."; never empty |
| Movies.DisplayRating | src/components/MovieDescription.jsx:46-49 | "N/A" exactly when `vote_average` is not a number, else that number |
| Movies.PosterUrl | src/components/MovieDescription.jsx:50-52 | null exactly when the path is falsy; otherwise the w500 base followed by the path |
| Movies.PosterUrlInjective | src/components/MovieDescription.jsx:50-52 | different paths give different poster URLs |
| MovieDescription.RuntimeLabel | src/components/MovieDescription.jsx:53 | null exactly when the runtime is missing or zero; otherwise text ending in " min" |
| MovieDescription.RuntimeLabelReadsBack | src/components/MovieDescription.jsx:53 | the runtime text begins with the runtime's own number |
| MovieDescription.ShownCompanies | src/components/MovieDescription.jsx:145 | the first min(6, n) production companies, in order |
| MovieDescription.MovieDescriptionView | src/components/MovieDescription.jsx:34-155 | only the loading view while loading or with no movie; otherwise the title, overview and rating fallbacks, a poster exactly when there is a path, runtime exactly when it is non-zero, the release date text exactly when there is one, the runtime label exactly when the runtime is non-zero, the first six companies in order, and the homepage link exactly when there is one |
| MovieDescription.AfterDetailsLoad | src/components/MovieDescription.jsx:19-32 | a fetched movie replaces the state; a failure keeps it; loading ends |
| MovieDescription.FailedFirstLoadStaysLoading | src/components/MovieDescription.jsx:19-42 | when the first load fails the page stays on the loading view; when it succeeds the page shows |
| MovieDescription.AtMostSixCompanies | src/components/MovieDescription.jsx:145 | with six or more companies exactly the first six are shown |
| Description.HomepageHref | src/components/Description.jsx:76 | the homepage if present, else "#" |
| Description.DescriptionView | src/components/Description.jsx:33-96 | the loading view exactly while loading; otherwise the title, overview and rating fallbacks, and a poster with its homepage link exactly when there is a poster path; the initial empty record shows "Untitled", "N/A", no poster and the default overview |
| Description.DetailPagesAgree | src/components/Description.jsx:43-51 | both detail pages show the same title, overview, rating and poster for the same movie |
| FeaturedFilm.HandleFavouriteClick | src/components/FeaturedFilm.jsx:31-37 | logged out, a redirect to the profile and no toggle; logged in, a toggle of exactly this movie |
| FeaturedFilm.ReleaseYearText | src/components/FeaturedFilm.jsx:39-41 | "N/A" exactly when there is no release date; otherwise text that reads back as the year |
| FeaturedFilm.BackdropUrl | src/components/FeaturedFilm.jsx:42-44 | the original-size base followed by the backdrop path when truthy, else by the poster path as interpolated |
| FeaturedFilm.NoImagePathStillGivesUrl | src/components/FeaturedFilm.jsx:42-44 | with neither path the URL still ends in "null" or "undefined" |
| FeaturedFilm.AgeBadge | src/components/FeaturedFilm.jsx:109-118 | "18+" exactly for adult, "All Ages" exactly for not adult, none exactly when the flag is undefined |
| FeaturedFilm.FavouriteLabel | src/components/FeaturedFilm.jsx:159-161 | "Remove from Favourites" exactly for a favourite, else "Add to Favourites" |
| FeaturedFilm.FeaturedFilmView | src/components/FeaturedFilm.jsx:21-162 | the placeholder exactly for a null movie; a render error exactly when the rating is not a number; otherwise the original title shown exactly when it differs from the title, the year text of ReleaseYearText, the badge, backdrop and details path, and the label of FavouriteLabel |
| AuthSync.SignedInEmail | src/hooks/useAuthSync.js:11 | the user's email exactly when there is a user with a non-empty email |
| AuthSync.SyncAction | src/hooks/useAuthSync.js:10-17 | always exactly one of load or clear; load exactly when signed in with an email, for that email; signed out always clears |
| AuthSync.LoginLoadsOwnFavourites | src/hooks/useAuthSync.js:11-13 | after a successful login the favourites of the email signed in with are loaded |
| AuthSync.LogoutClearsFavourites | src/hooks/useAuthSync.js:14-16 | after logout the favourites are cleared |
| Profile.ProfileSyncAction | src/components/Profile.jsx:12-18 | load exactly when signed in with an email; clear exactly when not and loading is over; nothing while loading otherwise |
| Profile.ProfileAgreesWithHookAfterLoading | src/components/Profile.jsx:12-17 | once loading is over the page and the hook choose the same action; while loading the page holds back the hook's clear |
| Profile.ProfileRender | src/components/Profile.jsx:21-67 | the spinner exactly while loading, the form exactly when signed out after loading, otherwise the profile with the favourite count equal to the list length |
| Profile.NoSpinnerAfterStartup | src/components/Profile.jsx:21-30 | after the startup restore the page never shows the spinner, whatever storage held |
| ProtectedRoute.Guard | src/components/ProtectedRoute.jsx:5-35 | the spinner exactly while loading; the children exactly when signed in after loading; otherwise nothing, with a redirect to `/profile` replacing the history entry; never the children when signed out; no redirect while loading |
| ProtectedRoute.GuardAfterStartup | src/components/ProtectedRoute.jsx:9-31 | after startup a stored user reaches the children; nothing stored or a corrupt value is redirected |

## Left out

- Network requests, the `Authorization` header and environment configuration. Responses are inputs. `fetchGenres`, `fetchMoviesByGenre` and `fetchMovieDetails` are not part of this model; their results are passed in.
- `fetchMovieDetails` resolving to `null` or `undefined`: it is not part of this model. `MovieDescription.AfterDetailsLoad` treats any non-movie result as a failed fetch.
- Real time. The 200 ms click timer and the 500 ms submit delay are events. React effect ordering, re-rendering and races between overlapping requests are not modelled.
- Side effects with nothing to verify: toasts, `console` output, `window.scrollTo` and the React Router `navigate` calls. A navigation or redirect is returned as a value.
- Floating point. `toFixed(1)`, `Math.round(popularity)` and `toLocaleString` are not modelled; a rating is a `real`. The release year from `new Date(...).getFullYear()` is an input.
- JSON encoding. Stored values are parse-ok / parse-fail / absent, and a user record is a map from field names to strings.
- Exotic inputs:
  - `parseInt` is exact over unbounded integers, so precision loss past 2^53 is not modelled.
  - Text length is counted in characters, not UTF-16 units.
- Browser form validation. The `required`, `minLength` and `type="email"` attributes (`src/components/LoginRegister.jsx:150-185`) can stop a submit before `validateForm` runs. This is not modelled; the model runs `validateForm` on every submit.
- LoginRegister.LoginForm.Submit: requires that no submission is in flight. While one is, the submit button and every input are disabled (`src/components/LoginRegister.jsx:148-190`).
- MovieCard.MovieCardState.TimerFires: requires a pending timer. A cancelled timer never fires.
- `handleClick` in `src/components/MovieCard.jsx` is not bound to any element in the rendered markup. It is modelled as written.
- `handleToggleMode` in `src/components/LoginRegister.jsx` is not bound either. The tabs call `setShowLogin` directly, which `LoginRegister.LoginForm.SelectMode` models.
- Failed storage calls:
  - A `localStorage.removeItem` that throws during logout or startup is not modelled.
  - The `"favouriteMovies"` write is assumed to succeed.
- FetchPopularMovies.FetchPopularMovies: the failure reason is the first failing page in page order. Which rejection `Promise.all` reports first in time is not modelled.
- A page response without a `results` field is not modelled. `concat(undefined)` would append one `undefined` entry.
- The favourites store (`toggleFavourite`, `isFavourite`, `loadUserFavourites`, `clearUserFavourites`) is defined in no modelled file. Its calls are returned as actions, and favourite membership is an input.
- The loading screens of the category views (`src/components/Categories.jsx:63`, `src/components/CategoryPage.jsx:52`) and other pure markup are not modelled. The same goes for the profile's initial letter, which depends on Unicode upper-casing.
- Presentation-only, broken or out-of-scope files are not part of this model: `Home`, `SearchedMoviesList`, `MovieContext`, `Navigation`, `PopularMoviesList`, `Search`, `PlaceholderCard`, `FavouriteMovies`, `Favourites` and `App`.

## Findings

| source | as written | input that shows it | evidently intended | confidence | as-written member | corrected member |
|---|---|---|---|---|---|---|
| src/services/fetchMovieTrailer.js:4-5 | `typeof id === "object" ? id.id : id` reads `null.id` for a `null` argument, since `typeof null` is "object"; the promise rejects with a TypeError before the `!movieId` guard | `fetchMovieTrailer(null)` | a `null` argument is a falsy id and resolves to null without a request, like `undefined` or `0` | high, not executed | FetchMovieTrailer.FetchMovieTrailerAsWritten | FetchMovieTrailer.FetchMovieTrailer |
