# Netflix clone: verified model of the session, watchlist, catalogue and content API

This project models the core of a Netflix-style streaming site in Dafny. The site has a Next.js frontend and a
Django REST backend. The model covers these parts.

- **HTTP client** (`api_client.dfy`). The browser's `localStorage`, the request interceptor that attaches the
  bearer token, and the response interceptor. That interceptor refreshes the access token once and re-issues a
  request that was answered 401. It also covers the storage helpers and logout.
- **Authentication context** (`auth_context.dfy`). The signed-in user and the loading flag. Also
  initialisation, login, registration, Google sign-in, logout and profile update.
- **My List page** (`my_list_page.dfy`). Fetching the watchlist, the optimistic removal that puts the list
  back into state when the server call fails, and what the page renders.
- **Register page** (`register_page.dfy`). Field updates, the password-confirmation guard, and the error
  message built from the server's field errors.
- **Mock catalogue data** (`my_list_data.dfy`, `movies_data.dfy`, `tv_shows_data.dfy`,
  `new_releases_data.dfy`, `movie_details_data.dfy`, `media.dfy`). The static lists and the filter and slice
  views over them. The in-memory "My List" store has add and remove.
- **Content models** (`content_models.dfy`). Rating and status choices, and the watchlist and rating rows:
  their `clean` rule, display strings and unique-together constraints.
- **Content admin** (`content_admin.dfy`). The "Content" column of the watchlist and rating admin lists.
- **Content serializers** (`content_serializers.dfy`, `py_dict.dfy`). The one-target rule and the create step
  of the watchlist and rating serializers. The field rules of the search and recommendation requests.
- **Content views** (`content_views.dfy`). The search endpoint (query, genre and year filters, pagination)
  and the recommendation endpoint (exclusion of held titles, genre narrowing, limit).
- **Accounts** (`accounts_models.dfy`, `accounts_serializers.dfy`). Subscription plans, the user's display
  string, full name and avatar URL, and the password-confirmation rules.

Helper modules: `wrappers.dfy` (`Option`, `Result`, `Outcome`), `seqs.dfy` (order-keeping filter, slices,
subsequences) and `text.dfy` (join, ASCII case-insensitive containment, JavaScript `parseInt` on leading
decimal or hexadecimal digits, integer printing).

State the source changes in place is modelled as classes:

- the browser client, the auth provider and the two pages;
- the My List store;
- the validated-data dictionary the serializers edit.

Server replies, the clock and the current user are parameters. A ghost log of network calls lets the contracts
say which requests were sent, with which `Authorization` header and body.

## Model

| member | source | states |
|---|---|---|
| `Media.Label` | frontend/src/data/myList.ts:5 | A media type is written "Movie" or "TV Show" |
| `Media.LabelInjective` | frontend/src/data/myList.ts:5 | Distinct media types have distinct labels |
| `ApiClient.WithBearer` | frontend/src/lib/api.ts:15-22 | With a non-empty stored token the headers gain `Authorization: Bearer <token>` and nothing else changes; otherwise they are untouched |
| `ApiClient.RequestConfig.constructor` | frontend/src/lib/api.ts:7-12 | A new request carries only the JSON content-type header and is not yet marked retried |
| `ApiClient.Client.GetUser` | frontend/src/lib/api.ts:268-271 | The stored user is returned exactly when the user key is stored, else null |
| `ApiClient.Client.SetTokens` | frontend/src/lib/api.ts:259-262 | Both tokens are stored and nothing else changes; the client is authenticated iff the access token is non-empty |
| `ApiClient.Client.SetUser` | frontend/src/lib/api.ts:264-266 | The user is stored and read back; both tokens are unchanged |
| `ApiClient.Client.ClearAuth` | frontend/src/lib/api.ts:277-281 | Exactly the access, refresh and user keys are removed; afterwards the client is not authenticated and has no user |
| `ApiClient.Client.AttachToken` | frontend/src/lib/api.ts:15-22 | The request's headers become `WithBearer` of the old headers and the stored access token |
| `ApiClient.Bearer` | frontend/src/lib/api.ts:7-22 | The `Authorization` header a new request carries is the one the request interceptor sets on the instance's default headers |
| `ApiClient.SettlesDirectly` | frontend/src/lib/api.ts:34-38 | The interceptor acts only on a 401 for a request not yet retried while a refresh token is stored; every other answer settles the request directly |
| `ApiClient.SettlementKeepsOtherKeys` | frontend/src/lib/api.ts:48-56 | However a request settles, storage keys outside the session are untouched; a direct settlement leaves storage as it was |
| `ApiClient.Client.Dispatch` | frontend/src/lib/api.ts:28-64 | Three outcomes (`Settle`). A success, or an error the interceptor does not handle, is returned after one send. A first 401 with a refresh token stored and a new token issued: the new token is stored and the request is re-sent once with it, its answer returned. A failed refresh: the session keys are cleared, the page goes to /login and the original error is returned. The calls made, with their headers and bodies, are stated for each; other storage keys never change |
| `ApiClient.Client.OnResponseError` | frontend/src/lib/api.ts:31-63 | Refreshes only for a 401 on a request not yet retried with a refresh token stored. Marks the request retried on any 401. Same three outcomes as above, counted from the refresh call |
| `ApiClient.Client.IsAuthenticated` | frontend/src/lib/api.ts:273-275 | True iff a non-empty access token is stored |
| `ApiClient.Client.Logout` | frontend/src/lib/api.ts:92-100 | Without a refresh token nothing is sent and the session keys are cleared. With one, `{refresh_token}` is posted through `Dispatch`. When that settles with success the session keys are cleared. When it rejects, the error propagates and storage and location are as the interceptor left them: unchanged, the access token refreshed, or the session cleared with the page on /login |
| `AuthContext.AuthProvider.IsAuthenticated` | frontend/src/contexts/AuthContext.tsx:54 | The context is authenticated iff a user is set, whatever the stored tokens |
| `AuthContext.AuthProvider.constructor` | frontend/src/contexts/AuthContext.tsx:51-54 | No user, loading, not authenticated |
| `AuthContext.AuthProvider.InitializeAuth` | frontend/src/contexts/AuthContext.tsx:56-72 | Without a stored token nothing is fetched or changed. With one, the profile is fetched through `Dispatch`: when that settles with success the profile becomes the user (storage as the interceptor left it, possibly with a refreshed access token); when it rejects the session keys are cleared. A failed refresh also sends the page to /login. Loading ends on every path |
| `AuthContext.AuthProvider.SignIn` | frontend/src/contexts/AuthContext.tsx:74-84 | One post through `Dispatch`. On a settled success the tokens and user are stored over what the interceptor left, and the user is set. On a rejection the error is rethrown, the user is unchanged and storage and location are as the interceptor left them; with no refresh token stored, a rejected first answer leaves user, storage and location untouched |
| `AuthContext.AuthProvider.Login` | frontend/src/contexts/AuthContext.tsx:74-84 | `SignIn` for the login endpoint and the credentials. A 401 for bad credentials with a stale refresh token stored goes through the refresh step like any other 401 (see Findings); with no refresh token stored a rejection leaves user, storage and location untouched |
| `AuthContext.AuthProvider.Register` | frontend/src/contexts/AuthContext.tsx:86-103 | `SignIn` for the registration endpoint and form; with no refresh token stored a rejection leaves user, storage and location untouched |
| `AuthContext.AuthProvider.GoogleLogin` | frontend/src/contexts/AuthContext.tsx:105-115 | `SignIn` for the Google endpoint with `access_token` set to the credential; with no refresh token stored a rejection leaves user, storage and location untouched |
| `AuthContext.AuthProvider.Logout` | frontend/src/contexts/AuthContext.tsx:117-126 | Whatever the logout call does, the session keys are cleared and the user is null. Without a refresh token no call is made and the location is kept; with one, the call log and location are those `Client.Logout` leaves for the settled logout post |
| `AuthContext.AuthProvider.UpdateProfile` | frontend/src/contexts/AuthContext.tsx:128-137 | One put through `Dispatch`. On a settled success the server's user is stored and set. On a rejection the error is rethrown, the user is unchanged and storage and location are as the interceptor left them |
| `AuthContext.RejectedLoginCanEndSession` | frontend/src/lib/api.ts:34-62 | A login answered 401 with any non-empty refresh token stored, whose refresh then fails, rejects with the 401, clears the session and lands on /login |
| `AuthContext.RejectedSignInKeepsSession` | frontend/src/contexts/AuthContext.tsx:74-115 | Under the intended settlement, which exempts the login, registration and Google endpoints from the refresh step, a rejected sign-in rejects with the server's error after exactly one call and leaves storage and location as they were, whatever refresh token is stored |
| `AuthContext.IntendedSettleElsewhere` | frontend/src/lib/api.ts:34-38 | The intended settlement still refreshes a 401 with a refresh token stored on every other endpoint |
| `MyListPage.Without` | frontend/src/app/my-list/page.tsx:56 | Keeps exactly the items with another id, in their original order |
| `MyListPage.WithoutAbsent` | frontend/src/app/my-list/page.tsx:56 | Removing an id no item has changes nothing |
| `MyListPage.WithoutPresent` | frontend/src/app/my-list/page.tsx:56 | Removing an id some item has shortens the list |
| `MyListPage.Shown` | frontend/src/app/my-list/page.tsx:91-92 | A card shows the movie, else the TV show; it shows nothing iff both are absent |
| `MyListPage.Cards` | frontend/src/app/my-list/page.tsx:90-92 | Exactly one card per item with a movie or show, in list order, each showing that item's content; items without one are skipped |
| `MyListPage.MyListPage.Render` | frontend/src/app/my-list/page.tsx:67-123 | The loading panel while the auth state or the list loads; otherwise the error panel whenever an error is set; the list (grid or empty notice) is displayed iff nothing loads and no error is set |
| `MyListPage.MyListPage.constructor` | frontend/src/app/my-list/page.tsx:27-29 | Empty list, loading, no error; the page renders the loading panel |
| `MyListPage.MyListPage.FetchWatchlist` | frontend/src/app/my-list/page.tsx:38-48 | On success the list state is the results, or empty when there are none. On failure the list is kept, the fetch error is set and the error panel is rendered. Loading ends either way |
| `MyListPage.MyListPage.HandleRemove` | frontend/src/app/my-list/page.tsx:53-81 | The list without the item is put into state at once. On failure the error is set and the original list is put back into state, but the page renders only the error panel, so the restored list is not displayed |
| `Text.Join` | frontend/src/app/register/page.tsx:49 | Joining a single part gives that part |
| `Text.JoinEmpty` | frontend/src/app/register/page.tsx:49-50 | The joined text is empty iff there are no parts or a single empty part |
| `Text.JoinContainsParts` | frontend/src/app/register/page.tsx:49 | Every part occurs in the joined text |
| `RegisterPage.Flatten` | frontend/src/app/register/page.tsx:49 | A message is in the flattened list iff some error value carries it |
| `RegisterPage.ErrorMessage` | frontend/src/app/register/page.tsx:46-53 | The message is never empty, and is the generic one when the error has no body |
| `RegisterPage.ErrorMessageFallback` | frontend/src/app/register/page.tsx:46-53 | The generic message appears exactly when the flattened messages join to nothing; otherwise the server's messages are shown joined by spaces. Every server message occurs in the text shown |
| `RegisterPage.RegisterPage.constructor` | frontend/src/app/register/page.tsx:11-18 | All four fields empty, no error, not submitting |
| `RegisterPage.RegisterPage.HandleChange` | frontend/src/app/register/page.tsx:27-29 | The named field takes the value and every other field is unchanged |
| `RegisterPage.RegisterPage.HandleSubmit` | frontend/src/app/register/page.tsx:31-57 | Passwords that differ give the mismatch error with no network call. Otherwise the form is posted once through `Dispatch`: a settled success goes to /profile, a rejection shows `ErrorMessage` of the server body, and storage and location are as `Register` leaves them. Submitting ends on every path, and the form and the auth loading flag are unchanged |
| `MyListData.Stamp` | frontend/src/data/myList.ts:93-98 | The new item keeps the given fields and takes the id and date |
| `MyListData.MaxId` | frontend/src/data/myList.ts:96 | The result is the largest id in the list |
| `MyListData.FindIndex` | frontend/src/data/myList.ts:104 | The first index with the id, or -1 iff no item has it |
| `MyListData.ByType` | frontend/src/data/myList.ts:85-87 | Exactly the items of the type, in order |
| `MyListData.ByGenre` | frontend/src/data/myList.ts:89-91 | Exactly the items of the genre, in order (an item without a genre never matches) |
| `MyListData.UniqueRemoval` | frontend/src/data/myList.ts:103-109 | With unique ids, splicing out the found index equals filtering out the id, and ids stay unique |
| `MyListData.AddThenRemove` | frontend/src/data/myList.ts:93-109 | Removing the id that add just assigned finds it at the end and gives back the list as it was |
| `MyListData.MyListStore.constructor` | frontend/src/data/myList.ts:12-79 | The store starts with the six listed items, whose ids are unique |
| `MyListData.TypesPartition` | frontend/src/data/myList.ts:85-87 | The movie view and the TV-show view together hold as many entries as the list |
| `MyListData.MyListStore.GetMyList` | frontend/src/data/myList.ts:81-83 | The whole stored list, which the two type views split between them |
| `MyListData.MyListStore.GetMyListByType` | frontend/src/data/myList.ts:85-87 | Exactly the stored items of the type |
| `MyListData.MyListStore.GetMyListByGenre` | frontend/src/data/myList.ts:89-91 | Exactly the stored items of the genre |
| `MyListData.MyListStore.AddToMyList` | frontend/src/data/myList.ts:93-101 | Appends the item with an id one above the largest. That id exceeds every existing one, so unique ids stay unique |
| `MyListData.MyListStore.RemoveFromMyList` | frontend/src/data/myList.ts:103-110 | Returns true iff some item has the id, and then splices out the first such item. Otherwise the list is unchanged. With unique ids the result is the list without that id |
| `MoviesData.GetMoviesByGenre` | frontend/src/data/movies.ts:125-127 | Exactly the movies of the genre, in catalogue order |
| `MoviesData.GetPopularMovies` | frontend/src/data/movies.ts:129-131 | The first eight movies |
| `MoviesData.GetMoviesByYear` | frontend/src/data/movies.ts:133-135 | Exactly the movies of the year, in order |
| `MoviesData.InDecade` | frontend/src/data/movies.ts:138-143 | A year is in a decade iff both read as numbers and the year lies in the ten years from the decade; a NaN on either side fails every comparison |
| `MoviesData.GetMoviesByDecade` | frontend/src/data/movies.ts:137-144 | Exactly the movies whose `parseInt` year lies in the ten years from the decade's `parseInt` value |
| `MoviesData.YearWithinDecade` | frontend/src/data/movies.ts:133-144 | A movie listed for a year is listed for every decade containing that year |
| `MoviesData.UnreadableDecade` | frontend/src/data/movies.ts:137-144 | A decade that does not start with a digit (NaN) lists nothing |
| `MoviesData.DecadeOfNumber` | frontend/src/data/movies.ts:137-144 | For a decade written as digits, a movie is listed iff its year reads as a number in that range |
| `Text.ParseInt` | frontend/src/data/movies.ts:138-141 | `parseInt` reads hexadecimal after a "0x" or "0X" prefix and is NaN iff no hex digit follows; otherwise it is NaN iff the text does not start with a decimal digit |
| `Text.HexParse` | frontend/src/data/movies.ts:138-141 | A bare "0x" is NaN and "0x7C6" is 1990 |
| `Text.ParseIntRoundTrip` | frontend/src/data/movies.ts:138-141 | Reading back a printed natural number gives the number |
| `TvShowsData.GetTVShowsByGenre` | frontend/src/data/tvShows.ts:103-105 | Exactly the shows of the genre, in order |
| `TvShowsData.GetPopularTVShows` | frontend/src/data/tvShows.ts:107-109 | The first six shows |
| `TvShowsData.GetTrendingTVShows` | frontend/src/data/tvShows.ts:111-113 | The first four shows |
| `TvShowsData.TrendingPrefixOfPopular` | frontend/src/data/tvShows.ts:107-113 | Trending shows are the first four popular shows |
| `NewReleasesData.GetNewReleases` | frontend/src/data/newReleases.ts:164-166 | Exactly the releases flagged new, in order |
| `NewReleasesData.GetTrendingContent` | frontend/src/data/newReleases.ts:168-170 | Exactly the trending entries whose flag is truthy, in order |
| `NewReleasesData.GetComingSoon` | frontend/src/data/newReleases.ts:172-174 | The first four releases |
| `NewReleasesData.GetRecentlyAdded` | frontend/src/data/newReleases.ts:176-178 | Releases three to six |
| `NewReleasesData.ComingSoonOverlapsRecentlyAdded` | frontend/src/data/newReleases.ts:172-178 | The last two "coming soon" entries are the first two "recently added" ones |
| `NewReleasesData.AllTrending` | frontend/src/data/newReleases.ts:95-170 | Every trending entry is flagged, so the filter returns the whole list |
| `NewReleasesData.ComingSoonAllNew` | frontend/src/data/newReleases.ts:164-174 | Every "coming soon" entry is a new release |
| `NewReleasesData.RecentlyAddedNotAllNew` | frontend/src/data/newReleases.ts:164-178 | The last two "recently added" entries are not new releases |
| `MovieDetailsData.GetMovieDetail` | frontend/src/data/movieDetails.ts:228-230 | The record under the id, or null iff there is none |
| `MovieDetailsData.ValuesInKeyOrder` | frontend/src/data/movieDetails.ts:232-234 | `Object.values` of integer keys `lo..hi-1` lists each value at its key's position |
| `MovieDetailsData.GetAllMovieDetails` | frontend/src/data/movieDetails.ts:232-234 | The five records in ascending id order |
| `MovieDetailsData.KeysAreIds` | frontend/src/data/movieDetails.ts:20-226 | The keys are 1 to 5 and each record's id is its key |
| `MovieDetailsData.DetailsListedUnderTheirIds` | frontend/src/data/movieDetails.ts:228-234 | Every listed record is found by its id, and every record is listed |
| `MovieDetailsData.SimilarTitlesAgree` | frontend/src/data/movieDetails.ts:20-226 | A "more like this" entry that points at a detail record carries that record's title |
| `MovieDetailsData.DetailsAgreeWithCatalogue` | frontend/src/data/movieDetails.ts:20-226 | Each detail record agrees with the catalogue movie of the same id on title, genre, year and rating |
| `ContentModels.AgeRating.Value` | backend/content/models.py:25-31 | Each stored rating code fits the ten-character column |
| `ContentModels.ParseAgeRating` | backend/content/models.py:25-31 | An accepted value is the stored code of the choice returned |
| `ContentModels.AgeRatingRoundTrip` | backend/content/models.py:25-31 | Every rating choice is accepted back from its stored code |
| `ContentModels.ShowStatus.Value` | backend/content/models.py:76-80 | Each stored status fits the twenty-character column |
| `ContentModels.ParseShowStatus` | backend/content/models.py:76-80 | An accepted value is the stored code of the status returned |
| `ContentModels.ShowStatusRoundTrip` | backend/content/models.py:76-80 | Every status, the default "ongoing" included, is accepted back from its code |
| `ContentModels.CheckTarget` | backend/content/models.py:112-118 | Passes iff exactly one of movie and show is set; neither and both give their own messages |
| `ContentModels.TargetTitle` | backend/content/models.py:109 | The movie's title, else the show's; undefined (raises) iff neither is set |
| `ContentModels.WatchlistEntry.Clean` | backend/content/models.py:112-118 | Passes iff exactly one target is set |
| `ContentModels.WatchlistEntry.Display` | backend/content/models.py:108-110 | "username - title", defined iff a target is set |
| `ContentModels.RatingChoicesRange` | backend/content/models.py:126 | The rating choices are exactly 1 to 5 |
| `ContentModels.RatingEntry.RatingInChoices` | backend/content/models.py:126 | A rating passes its choices iff it is 1 to 5 |
| `ContentModels.RatingEntry.Clean` | backend/content/models.py:142-148 | Passes iff exactly one target is set |
| `ContentModels.RatingEntry.Display` | backend/content/models.py:138-140 | "username - title (rating/5)", defined iff a target is set |
| `ContentModels.Insert` | backend/content/models.py:101-106 | The database accepts a row iff it clashes with no stored row under either unique pair, and then appends it |
| `ContentModels.InsertKeepsUnique` | backend/content/models.py:101-106 | An accepted insert keeps the table free of clashes |
| `ContentModels.AtMostOnePerTarget` | backend/content/models.py:101-106 | Under the constraints a user holds at most one row per movie and at most one row per TV show |
| `ContentModels.CleanRowsDisplay` | backend/content/models.py:108-118 | A row that passes `clean` always displays, with the title of the target it holds |
| `ContentAdmin.ContentTitle` | backend/content/admin.py:104-110 | "Movie: title" when a movie is set, else "TV Show: title", else "Unknown"; "Unknown" appears iff neither is set |
| `ContentAdmin.WatchlistContentTitle` | backend/content/admin.py:104-110 | "Unknown" iff the watchlist row has no target |
| `ContentAdmin.RatingContentTitle` | backend/content/admin.py:140-146 | "Unknown" iff the rating row has no target |
| `ContentAdmin.AdminAgreesWithDisplay` | backend/content/admin.py:104-110 | The admin column is the kind prefix before the title `__str__` shows; it is "Unknown" exactly where `__str__` raises |
| `ContentAdmin.ColumnsAgree` | backend/content/admin.py:104-146 | Watchlist and rating rows with the same targets show the same column |
| `ContentAdmin.CleanRowsAreKnown` | backend/content/admin.py:104-110 | A row that passes `clean` never shows "Unknown" and shows its kind's prefix |
| `PyDict.Get` | backend/content/serializers.py:74 | `dict.get` finds a value iff the key is present |
| `PyDict.Dict.Pop` | backend/content/serializers.py:81-82 | `pop(key, None)` returns what the key held and removes exactly that key |
| `PyDict.Dict.Set` | backend/content/serializers.py:84-87 | Item assignment updates exactly that key |
| `ContentSerializers.ValidateTarget` | backend/content/serializers.py:73-78 | Valid iff exactly one id is truthy; neither and both give their messages; valid attributes pass unchanged |
| `ContentSerializers.PrepareCreate` | backend/content/serializers.py:80-89 | Each id key is kept iff it held a truthy value; every other key is kept as it was |
| `ContentSerializers.ValidatedPayloadHasOneTarget` | backend/content/serializers.py:73-89 | After validation the create payload names exactly one target |
| `ContentSerializers.ParseKind` | backend/content/serializers.py:129 | Only "movie" and "tv_show" are accepted kinds |
| `ContentSerializers.SearchErrors` | backend/content/serializers.py:126-133 | A field is reported iff its own rule fails |
| `ContentSerializers.ValidateSearch` | backend/content/serializers.py:126-133 | Rejected iff some field fails, with those fields. A valid request has a 1-200 character query, page at least 1 (default 1), page size 1-50 (default 20) and a genre of 1-50 characters when given. Every field given is passed on as submitted: the query, the kind, the genre, the year, the page and the page size; the optional ones are present iff given |
| `ContentSerializers.KindName` | backend/content/serializers.py:129 | The submitted choice for a kind is accepted back as that kind |
| `ContentSerializers.SearchRoundTrip` | backend/content/serializers.py:126-133 | Any parameters within the bounds, written out as a request, validate back to themselves |
| `ContentSerializers.RecommendErrors` | backend/content/serializers.py:136-140 | A field is reported iff its own rule fails |
| `ContentSerializers.ValidateRecommend` | backend/content/serializers.py:136-140 | Rejected iff some field fails; otherwise the limit is 1-50 (default 10), and the kind, the genre and the limit are passed on as submitted, the optional ones present iff given |
| `ContentSerializers.RecommendRoundTrip` | backend/content/serializers.py:136-140 | Any parameters within the bounds, written out as a request, validate back to themselves |
| `ContentSerializers.EmptyRecommendRequest` | backend/content/serializers.py:136-140 | An empty request is valid and asks for ten of each kind |
| `ContentSerializers.QueryOnlySearch` | backend/content/serializers.py:126-133 | A request with only a valid query asks for the first page of twenty |
| `ContentViews.GenreHits` | backend/content/views.py:133 | How many genres a title has whose name contains the term; non-zero iff one does |
| `ContentViews.GenreJoin` | backend/content/views.py:132-133 | The join lists exactly the titles with a matching genre, each as many times as the query set holds it times the number of its genres that match |
| `ContentViews.GenreFilter` | backend/content/views.py:187-193 | Exactly the titles with a matching genre, each once, in order |
| `ContentViews.TwoHitsListTwice` | backend/content/views.py:132-133 | A title with two matching genres is listed twice by the join and once by the distinct filter |
| `ContentViews.GenreJoinDuplicates` | backend/content/views.py:132-133 | Searching with genre "ma" for a Drama-and-Romance title lists it twice |
| `ContentViews.JoinFillsTwoPlaces` | backend/content/views.py:187-196 | Recommending with genre "ma" and a limit of two, the Drama-and-Romance title takes both places under the join and one under the distinct filter |
| `ContentViews.GenreFilterNoDuplicates` | backend/content/views.py:187-193 | The distinct filter never lists a title more often than the query set holds it |
| `ContentViews.SearchMatches` | backend/content/views.py:125-135 | A title matches iff the query is in its title or description, it has a genre like the given one (when non-empty), and it has the year (when non-zero) |
| `ContentViews.PageOf` | backend/content/views.py:137-142 | The count is all matches. The results are the matches from `(page - 1) * page_size`, at most `page_size` of them |
| `ContentViews.PagesTile` | backend/content/views.py:137-142 | Pages 1 to n together are exactly the first `n * page_size` matches |
| `ContentViews.SearchKind` | backend/content/views.py:130-142 | The page returned is `PageOf` the matches |
| `ContentViews.SearchPost` | backend/content/views.py:114-160 | 400 iff the request is invalid, with the serializer errors. Otherwise movies and TV shows appear per the kind, each as the requested page of its matches |
| `ContentViews.TargetIds` | backend/content/views.py:184 | The ids of exactly the held titles of that kind |
| `ContentViews.HistoryNames` | backend/content/views.py:178-179 | The genre names of the held titles; empty iff nothing of that kind is held |
| `ContentViews.Named` | backend/content/views.py:178 | Each genre name appears as a non-null value |
| `ContentViews.Recommended` | backend/content/views.py:183-193 | Exactly the unheld titles with a genre like the given one. With no genre given and a non-empty history, those with a genre named in the history. Catalogue order |
| `ContentViews.RecommendKind` | backend/content/views.py:182-197 | The first `limit` of `Recommended` |
| `ContentViews.Held` | backend/content/views.py:177-178 | One entry per row of the user, holding that row's title of the kind |
| `ContentViews.RecommendPost` | backend/content/views.py:167-218 | 400 iff the request is invalid. Otherwise each requested kind gets the first `limit` recommendations for the user's own watchlist rows |
| `ContentViews.NoHeldTitleRecommended` | backend/content/views.py:183-197 | No held title is recommended, and at most `limit` titles are |
| `ContentViews.GenreOverridesHistory` | backend/content/views.py:187-189 | Once a genre is given, the history does not affect the recommendations |
| `ContentViews.GenrelessHistoryRecommendsNothing` | backend/content/views.py:189-193 | A history of titles without genres recommends nothing |
| `AccountsModels.Plan.Value` | backend/accounts/models.py:18-26 | Each stored plan code fits the twenty-character column |
| `AccountsModels.ParsePlan` | backend/accounts/models.py:18-26 | An accepted value is the code of the plan returned |
| `AccountsModels.PlanRoundTrip` | backend/accounts/models.py:18-26 | Every plan, the default "basic" included, is accepted back from its code |
| `AccountsModels.Display` | backend/accounts/models.py:38-39 | The e-mail when non-empty, else the username |
| `AccountsModels.DisplayEmpty` | backend/accounts/models.py:38-39 | The display string is empty iff both e-mail and username are |
| `AccountsModels.FullName` | backend/accounts/models.py:41-46 | "first last" when both are set, else the username |
| `AccountsModels.FullNameSplits` | backend/accounts/models.py:41-46 | With both names set, the full name splits back into them at one space |
| `AccountsModels.ProfilePictureUrl` | backend/accounts/models.py:48-52 | The picture when non-empty, else the avatar service URL carrying the full name |
| `AccountsModels.AvatarCarriesName` | backend/accounts/models.py:48-52 | The generated URL is the prefix, the full name and the suffix, and the name can be read back |
| `AccountsModels.PictureIgnoresNames` | backend/accounts/models.py:48-52 | With a picture, changing the names does not change the URL |
| `AccountsSerializers.ValidateRegistration` | backend/accounts/serializers.py:24-27 | Valid iff the two passwords are equal; valid attributes pass unchanged; otherwise "Passwords don't match" |
| `AccountsSerializers.PrepareRegistration` | backend/accounts/serializers.py:29-32 | Exactly the confirmation key is removed |
| `AccountsSerializers.RegistrationPayload` | backend/accounts/serializers.py:24-32 | The user manager gets the confirmed password once, no confirmation, and every other field as submitted |
| `AccountsSerializers.ValidatePasswordChange` | backend/accounts/serializers.py:72-75 | Valid iff the two new passwords are equal; otherwise "New passwords don't match" |
| `AccountsSerializers.ConfirmationsAgree` | backend/accounts/serializers.py:24-27 | Both confirmation checks accept the same pairs but fail with different messages |
| `AccountsSerializers.ValidateAccessToken` | backend/accounts/serializers.py:55-57 | Every access token is accepted unchanged |

## Left out

- HTTP transport, JSON encoding and axios internals are not modelled. Each server answer is a parameter. The
  `authAPI` calls go through the modelled interceptors; the `contentAPI` calls of the My List page
  (`getWatchlist`, `removeFromWatchlist`) are given as their final outcome, so a refresh or redirect on their way
  is not part of that page's model.
- Error bodies (`ApiClient.ErrorValue`) are modelled only as objects whose values are messages or message
  lists. A plain-text body (a 500 page, where `Object.values` of a string yields its characters) and nested
  objects are not represented, so `RegisterPage.ErrorMessage` is stated only for object bodies.
- Images, posters, backdrops, trailers and synopses of the catalogue entries are not modelled. They take no
  part in any operation.
- The date `addToMyList` stamps comes from the clock and is a parameter.
- Character case folding covers ASCII only. Django's `icontains` and the database collation are not
  modelled beyond that.
- The default query-set ordering (by release date, newest first) is taken as the order of the input
  sequences. Release and air dates are reduced to their year.
- Concurrency, React rendering, routing guards and the `useAuth` hook are not modelled. Only the state
  updates the handlers make are.
- The accounts views and URL routes, the populate-sample-data command and pages other than My List and
  Register are outside the modelled core.
- Django's `validate_password` rules and user creation with password hashing are not modelled.
- `MyListData.MyListStore.AddToMyList`: requires a non-empty list. On an empty list `Math.max()` gives
  -Infinity and the new id is not a number.
- `Text.ParseInt`: leading whitespace and a sign are not read, so `parseInt(" 5")` and `parseInt("-5")` are NaN
  here where JavaScript gives 5 and -5. Its only caller reads catalogue years and decades, which have neither.
- `MoviesData.InDecade`: reads years with `parseInt` on a leading "0x" prefix or leading decimal digits.
  Leading whitespace and a sign are not modelled; the catalogue's years and the decade the movies page
  passes have neither.
- `ContentSerializers.ValidateSearch`: DRF's trimming of whitespace and its conversion of numeric strings to
  integers are not modelled. Fields arrive already typed.
- `ContentSerializers.ValidateRecommend`: the same simplification as for search.
- `ContentViews.SearchPost`: uses the distinct genre filter, not the duplicating join (see Findings).
- `ContentViews.RecommendPost`: uses the distinct filter for an explicit genre (see Findings).
- `ContentViews.SearchKind`: the same distinct genre filter as `SearchPost`, for one kind (see Findings).
- `ContentViews.RecommendKind`: the same distinct genre filter as `RecommendPost`, for one kind (see Findings).
- `MovieDetailsData.ValuesInKeyOrder`: covers records whose keys are consecutive integers only, which is what
  the detail table has.

## Findings

| source | as written | input that shows it | evidently intended | confidence | as-written member | corrected member |
|---|---|---|---|---|---|---|
| backend/content/views.py:132-133 | The search genre filter spans the many-to-many genre relation without `.distinct()`. A title is listed, and counted, once per genre whose name contains the term | A title with genres "Drama" and "Romance", searched with genre "ma": results hold it twice and the count is 2 | Each matching title once, as the history branch of recommendations does with `.distinct()` | not executed | `ContentViews.GenreJoinDuplicates` | `ContentViews.GenreFilterNoDuplicates` |
| backend/content/views.py:187-188 | The recommendation filter for an explicit genre has the same join without `.distinct()`. A title can be recommended twice and fill two places of the limit | The same title, not held, with genre "ma" and limit 2 in a recommendation request: both places are that title | Each recommended title once | not executed | `ContentViews.JoinFillsTwoPlaces` | `ContentViews.GenreFilterNoDuplicates` |
| frontend/src/lib/api.ts:34-58 | The response interceptor runs its refresh step on every 401, including the one the login endpoint sends for a wrong password (backend/accounts/views.py:67-69). `login`, `register` and `googleLogin` (frontend/src/contexts/AuthContext.tsx:74-115) then do not simply fail: with a refresh token stored, the credentials are re-sent with a new access token written to storage, or, when the refresh fails, the session keys are removed and the page is sent to /login, so the "Invalid credentials" message is never shown | A wrong password while a stale refresh token is stored, and the refresh fails: the login rejects with the 401, storage loses its session keys and the location is /login | A rejected sign-in surfaces the server's error with no retry and leaves the stored state untouched; only other endpoints refresh an expired session | not executed | `AuthContext.RejectedLoginCanEndSession` | `AuthContext.RejectedSignInKeepsSession` |

The search and recommendation operations use the corrected genre filter. The sign-in operations keep the
interceptor as written, because their contracts describe what the page does today; the corrected settlement,
`AuthContext.IntendedSettle`, changes only the three credential endpoints, and `RejectedSignInKeepsSession` and
`IntendedSettleElsewhere` state what it promises.
