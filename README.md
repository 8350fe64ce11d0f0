# Studio: rate limiter, API routes, middleware and feed, modelled in Dafny

This project models the server core of the Studio polling application:

- the fixed-window rate limiter (`rateLimit(...).check` over a counting store), with both stores:
  the durable `SupabaseStore` (a `rate_limits` table) and the in-memory `MemoryStore` that the
  limiter's tests use;
- the API route handlers for comments, votes, questions and user sync: the order of the
  rate check, bearer-token authentication, body validation and database writes, and the HTTP
  status each outcome gets;
- the edge middleware, which refuses API requests that have no `authorization` header and adds
  the security headers to every other request the middleware runs on;
- the feed hook's `loadMore`: its guard, the reset, the page range it requests, and how it
  merges a fetched page into the list and orders it (followed authors first, then newest first).

Layout:

- `wrappers.dfy`: `Option` and `Result`.
- `text.dfy`: JavaScript's `trim`, `split` on one character, ASCII `toLowerCase` and `slice`.
- `windows.dfy`: the counting rule of both stores as functions on a table of windows, with the
  window lemmas.
- `memory_store.dfy`, `supabase_store.dfy`, `rate_limiter.dfy`: the stores and the limiter, as
  classes whose methods update the table in place.
- `rate_limiter_scenarios.dfy`: the shared-store test, stated as a verified method over those classes.
- `http.dfy`: what the routes share: reading the request, the rate token, the bearer token, and
  mapping a thrown error to a status.
- `profiles.dfy`: the profile index the list routes build with `reduce`.
- `comments_route.dfy`, `votes_route.dfy`, `questions_route.dfy`, `users_sync_route.dfy`: the
  routes.
- `middleware.dfy`, `feed.dfy`: the middleware and the feed hook.

How each route is modelled:

- A pure function takes:
  - the request;
  - the limiter's verdict;
  - the token verifier, as a function parameter;
  - the outcomes of the database calls, as a record.
- It returns the reply (status and message or payload) and the list of writes it issued.
- A `method` per route runs `Limiter.Check` with that route's limit and rate token, then that
  function.
- Time (`Date.now()`) is an integer parameter `now`.
- The store's I/O outcomes are a `StoreIo` parameter: a read error, or a write error.

## Model

| member | source | states |
|---|---|---|
| Text.TrimStart | src/app/api/comments/route.ts:13 | the result is a suffix of the input, everything cut off is JavaScript white space, and the result does not start with white space |
| Text.TrimEnd | src/app/api/comments/route.ts:13 | the result is a prefix, everything cut off is white space, and the result does not end with white space |
| Text.Trim | src/app/api/comments/route.ts:108 | `trim` never lengthens the string; `Text.TrimSpec` states what it removes |
| Text.TrimSpec | src/app/api/comments/route.ts:13 | `trim` removes exactly the leading and trailing white space and keeps the inner text |
| Text.TrimOfParts | src/app/api/comments/route.ts:108 | cutting the leading white space and then the trailing white space leaves exactly the trimmed slice |
| Text.TrimIdempotent | src/app/api/comments/route.ts:108-111 | trimming twice is trimming once, and a string trims to "" exactly when it is all white space |
| Text.TrimmedIsFixed | src/app/api/comments/route.ts:108-111 | a trimmed string has nothing left to trim at either end |
| Text.TrimEmptyIffSpace | src/app/api/comments/route.ts:108 | a string trims to "" exactly when it is all white space |
| Text.TrimStartOfSpace | src/app/api/comments/route.ts:108 | an all-white-space string trims at the front to "" |
| Text.Split | src/app/api/comments/route.ts:17 | `split` gives at least one piece, no piece contains the separator, and joining the pieces with it rebuilds the input |
| Text.FirstPieceIsPrefix | src/app/api/comments/route.ts:13 | the first piece of a split is a prefix of the input, followed by the separator when it is shorter than the input |
| Text.Lower | src/app/api/users/sync/route.ts:46 | `toLowerCase` keeps the length, maps each character on its own, and leaves no upper-case ASCII letter |
| Text.Take | src/app/api/users/sync/route.ts:47 | `slice(0, n)` is the prefix of length `min(n, length)` |
| Windows.MemoryIncrement | src/lib/__tests__/rate-limiter.test.ts:10-20 | the in-memory increment always succeeds, stores the count it returns under the token, touches no other token and adds only the token as a key |
| Windows.DurableIncrement | src/lib/rate-limiter.ts:23-48 | on success the token's row becomes (returned count, now + interval); other rows never change; it fails exactly when the write fails, leaving the table as it was |
| Windows.ResetIff | src/lib/rate-limiter.ts:33-39 | with positive counts and a successful write, the returned count is 1 exactly when there is no current window, or the durable store's read failed |
| Windows.LiveWindowIncrements | src/lib/rate-limiter.ts:41-47 | a window that expires at or after `now` is incremented and not reset; the memory store keeps its expiry, the durable store moves it to now + interval |
| Windows.ExpiredWindowResets | src/lib/rate-limiter.ts:33-38 | a window that expired strictly before `now` restarts at count 1 with expiry now + interval |
| Windows.IncrementPreservesWellFormed | src/lib/rate-limiter.ts:33-47 | stored counts stay positive through every increment |
| Windows.Run | src/lib/__tests__/rate-limiter.test.ts:10-20 | a run of increments returns one count per call and leaves a window for the token |
| Windows.RunIsolatesTokens | src/lib/rate-limiter.ts:27-45 | a run of increments on one token leaves every other token's row as it was |
| Windows.MemoryCountsUp | src/lib/__tests__/rate-limiter.test.ts:18-19 | calls inside a live in-memory window return the stored count plus 1, plus 2, …, and the expiry never moves |
| Windows.MemoryNthCallReturnsN | src/lib/__tests__/rate-limiter.test.ts:13-19 | starting from no current window, the Nth call within one interval of the first returns N |
| Windows.DurableCountsUp | src/lib/rate-limiter.ts:41-47 | calls each within one interval of the previous one keep counting up in the durable store, and the expiry follows the last call |
| Windows.DurableNthCallReturnsN | src/lib/rate-limiter.ts:33-47 | starting from no current window, the Nth durable call returns N as long as no gap between calls exceeds the interval |
| MemoryStores.MemoryStore.constructor | src/lib/__tests__/rate-limiter.test.ts:8 | a new store has no entries |
| MemoryStores.MemoryStore.Increment | src/lib/__tests__/rate-limiter.test.ts:10-20 | the in-place update and the returned count are those of the in-memory counting rule |
| SupabaseStores.Credentials | src/lib/rate-limiter.ts:14-18 | the credentials exist exactly when the URL is set and so is either key; the service-role key is preferred |
| SupabaseStores.SupabaseStore.constructor | src/lib/rate-limiter.ts:10-12 | the store keeps the client it is given |
| SupabaseStores.SupabaseStore.Increment | src/lib/rate-limiter.ts:23-48 | the row update and the returned count, or the thrown write error, are those of the durable counting rule |
| SupabaseStores.NewSupabaseStore | src/lib/rate-limiter.ts:10-21 | a given client is used as is; otherwise the store is built when the credentials exist, and it throws "Supabase credentials are not configured" when they do not |
| RateLimiter.Store.Increment | src/lib/rate-limiter.ts:3-5 | whichever store backs the limiter, its increment follows that store's counting rule |
| RateLimiter.Verdict | src/lib/rate-limiter.ts:62-65 | a check passes exactly when the count is at most the limit; a higher count throws "Rate limit exceeded"; a store error is passed on |
| RateLimiter.ThresholdBoundary | src/lib/rate-limiter.ts:63-65 | a count equal to the limit passes and any count above it is rejected |
| RateLimiter.Limiter.constructor | src/lib/rate-limiter.ts:57-60 | the limiter keeps its interval and store |
| RateLimiter.Limiter.Check | src/lib/rate-limiter.ts:61-66 | each check increments the store exactly once, before deciding, so a rejected call still counts; the verdict follows from the new count |
| RateLimiter.RateLimit | src/lib/rate-limiter.ts:57-68 | the interval defaults to 60000; an injected store is used as is; otherwise a durable store is built, which throws when credentials are missing |
| RateLimiterScenarios.SharedStoreAcrossInstances | src/lib/__tests__/rate-limiter.test.ts:23-35 | two limiters with limit 3 over one memory store: checks A, B, A pass and the second B check throws "Rate limit exceeded" |
| RateLimiterScenarios.WindowBoundary | src/lib/__tests__/rate-limiter.test.ts:13-19 | with limit 3, the fourth call in a window is rejected, a call exactly at the expiry is still rejected, and a call after it passes |
| Http.Destructure | src/app/api/comments/route.ts:103 | destructuring a malformed or null body throws; an object body gives its fields |
| Http.ForwardedClient | src/app/api/comments/route.ts:13 | the token is the loopback address when `x-forwarded-for` is absent, and otherwise no longer than the header; `Http.ForwardedClientSpec` states which text it is |
| Http.ForwardedClientSpec | src/app/api/comments/route.ts:13 | the comments rate token is the trimmed first comma-separated entry of `x-forwarded-for`, and the loopback address only when the header is absent |
| Http.BlankForwardedForGivesEmptyToken | src/app/api/comments/route.ts:13 | a blank `x-forwarded-for` gives the empty rate token |
| Http.PlatformClient | src/app/api/votes/route.ts:15 | the rate token is `req.ip`, or the loopback address when it is absent |
| Http.BearerToken | src/app/api/comments/route.ts:16-18 | a token found is non-empty and contains no space |
| Http.BearerTokenSpec | src/app/api/comments/route.ts:16-18 | "scheme token" yields the token; a header without a space, or no header, yields none |
| Http.ThrownStatus | src/app/api/comments/route.ts:78-83 | a thrown error is 429 exactly when its message is "Rate limit exceeded", and 500 otherwise |
| Http.CaughtMessage | src/app/api/questions/route.ts:96-105 | a caught error's reply text is "Rate limit exceeded" for that error and the route's fixed text for any other |
| Http.Caught | src/app/api/comments/route.ts:78-83 | a caught error is answered 429 or 500, as its message says, with the text `Http.CaughtMessage` gives |
| Http.Authenticate | src/app/api/comments/route.ts:12-25 | a failed rate check is answered 429, or 500 with the route's fixed text; then a missing bearer token gets 401, then a failed verification 403; otherwise the handler goes on with the verified user |
| Profiles.IdSet | src/app/api/comments/route.ts:47 | the set of author ids holds exactly the ids in the list and is empty exactly when the list is |
| Profiles.ProfileIndex | src/app/api/comments/route.ts:59-62 | the `reduce` over the fetched profiles holds at most one entry per row; `Profiles.ProfileIndexKeys` and `Profiles.ProfileIndexLastWins` state its contents |
| Profiles.ListIndex | src/app/api/comments/route.ts:48-63 | authors are resolved through the fetched profiles' index, or through an empty index when the profiles query failed |
| Profiles.ProfileIndexKeys | src/app/api/comments/route.ts:59-62 | the profile index holds exactly the ids of the fetched profiles |
| Profiles.ProfileIndexLastWins | src/app/api/comments/route.ts:59-62 | under each id the index holds the last profile row with that id |
| Profiles.ReduceProfiles | src/app/api/comments/route.ts:59-62 | the `reduce` written as a loop builds the same index as `Profiles.ProfileIndex`, which the route functions use in its place |
| CommentsRoute.AuthorOf | src/app/api/comments/route.ts:71-74 | an author without a profile is "Anonymous" with avatar ""; otherwise each missing field gets that default |
| CommentsRoute.List | src/app/api/comments/route.ts:11-84 | a successful reply follows a successful comments query, one item per row; the recorded effects are the comments query first, then only the profiles lookup |
| CommentsRoute.ListSpec | src/app/api/comments/route.ts:11-84 | GET replies 200 exactly when auth passes, `question_id` is present and the query succeeds; a missing `question_id` is 400 before any query, and otherwise the question's comments are fetched first; item i is row i with its author resolved through the profile index ("Anonymous" and "" when the profiles query failed); profiles are looked up for exactly the rows' authors, and only when there are rows |
| CommentsRoute.ValidateComment | src/app/api/comments/route.ts:105-113 | the body is valid exactly when `question_id` is a non-empty string and the content is a string of 1 to 1000 characters after trimming; the trimmed content is kept; empty trimmed content is "Invalid content" and overlong content "Content too long (max 1000 characters)" |
| CommentsRoute.Create | src/app/api/comments/route.ts:86-156 | POST writes at most one comment, and a write means the insert succeeded and the reply is 201 with the stored row's id |
| CommentsRoute.CreateSpec | src/app/api/comments/route.ts:86-156 | POST inserts at most one comment: only after auth and validation, by the verified user, with trimmed content of 1 to 1000 characters; 201 exactly when it did; a refused request gets the prelude's reply (429, 500 "Create comment failed", 401 or 403), a body that is not an object 500 "Create comment failed" (or 429), and invalid fields 400; none of them writes |
| CommentsRoute.CreateInserts | src/app/api/comments/route.ts:102-149 | an authenticated request with valid fields whose insert succeeds inserts exactly that comment (question, user, trimmed content) and is answered 201 with the stored row and its author; a failed insert is 400 "Create failed" with nothing written |
| CommentsRoute.ContentBounds | src/app/api/comments/route.ts:108-113 | all-white-space content is "Invalid content", and content longer than 1000 characters after trimming is "Content too long" |
| CommentsRoute.Get | src/app/api/comments/route.ts:13-14 | GET counts one hit against the forwarded-for token with limit 60, then replies as the GET logic says |
| CommentsRoute.Post | src/app/api/comments/route.ts:88-89 | POST counts one hit against the forwarded-for token with limit 10, then replies as the POST logic says |
| VotesRoute.ValidateVote | src/app/api/votes/route.ts:32-37 | the body is valid exactly when `question_id` is a non-empty string and `value` is 1 or -1 |
| VotesRoute.Vote | src/app/api/votes/route.ts:13-76 | POST inserts at most one vote, and a 409 reply inserts nothing |
| VotesRoute.VoteSpec | src/app/api/votes/route.ts:14-76 | at most one vote is inserted, valid, by the verified user, and only when no vote exists; an existing vote is 409 with its value and counts and no insert; a refused request gets the prelude's reply (429, 500 "Vote failed", 401 or 403), a body that is not an object 500 "Vote failed" (or 429), and invalid input 400; none of them writes |
| VotesRoute.VoteDecides | src/app/api/votes/route.ts:39-69 | for an authenticated, valid request: a failed lookup is 400; an existing vote is 409 with its value and the counters and no insert; with none, exactly this user's vote is inserted and answered 201 with the counters; a failed insert or counters read is 400 |
| VotesRoute.AuthBeforeBody | src/app/api/votes/route.ts:18-37 | a request refused by auth gets the same reply whatever its body, and writes nothing |
| VotesRoute.Post | src/app/api/votes/route.ts:15-16 | the vote route counts one hit against `req.ip` with limit 20, then replies as the vote logic says |
| QuestionsRoute.PageRangeSpec | src/app/api/questions/route.ts:37-40 | the range is `page * pageSize` to `from + pageSize - 1`, which is `pageSize` rows; consecutive pages meet; the defaults give rows 0 to 9 |
| QuestionsRoute.PageRange | src/app/api/questions/route.ts:37-40 | the range starts at `page * pageSize` and holds `pageSize` rows, with page 0 and size 10 for absent parameters |
| QuestionsRoute.ItemOf | src/app/api/questions/route.ts:79-88 | missing counters become 0, and the profile is the author's index entry, or null |
| QuestionsRoute.List | src/app/api/questions/route.ts:13-107 | any backend call starts with the page's range; a successful reply follows a successful query, one item per row |
| QuestionsRoute.ListSpec | src/app/api/questions/route.ts:13-107 | an admitted GET first fetches the page's range; a failed query is 400 "Fetch failed" after the range fetch alone; otherwise 200 where item i is row i with counters defaulted and its profile from the index (none when the profiles query failed); profiles are looked up for exactly the rows' authors, and only when there are rows |
| QuestionsRoute.QuestionText | src/app/api/questions/route.ts:127-129 | `question_text` passes exactly when it is a string of at least 3 characters after trimming, and is kept trimmed; otherwise "Invalid question_text" |
| QuestionsRoute.TitleText | src/app/api/questions/route.ts:130-132 | `title` passes exactly when it is a non-empty string, and is kept trimmed; otherwise "Invalid title" |
| QuestionsRoute.ValidateQuestion | src/app/api/questions/route.ts:126-142 | valid exactly when `question_text` is a string of at least 3 characters after trimming and `title` a non-empty string; both are stored trimmed, and a falsy `expires_at` is stored as null |
| QuestionsRoute.Create | src/app/api/questions/route.ts:109-162 | POST writes at most one question, and a write means the insert succeeded and the reply is 201 with the new id |
| QuestionsRoute.CreateSpec | src/app/api/questions/route.ts:109-162 | POST inserts at most one question, owned by the verified user, with trimmed text of at least 3 characters; 201 exactly when it did, carrying the new id; a refused request gets the prelude's reply (429, 500 "Create question failed", 401 or 403), a body that is not an object 500 "Create question failed" (or 429), and invalid fields 400; none of them writes |
| QuestionsRoute.CreateInserts | src/app/api/questions/route.ts:126-155 | an authenticated request with valid fields whose insert succeeds inserts exactly the validated question (owner, trimmed text and title, the deadline or null) and is answered 201 with the new id; a failed insert is 400 "Create failed" with nothing written |
| QuestionsRoute.Get | src/app/api/questions/route.ts:16-17 | GET counts one hit against `req.ip` with limit 60, then replies as the GET logic says |
| QuestionsRoute.Post | src/app/api/questions/route.ts:111-112 | POST counts one hit against `req.ip` with limit 10, then replies as the POST logic says |
| UsersSyncRoute.OptionalString | src/app/api/users/sync/route.ts:13-17 | an optional string field passes exactly when it is absent or a string meeting its check, and gives that string |
| UsersSyncRoute.ParseBody | src/app/api/users/sync/route.ts:13-42 | a body that fails to parse counts as `{}`; a null or non-object body is rejected; an object passes exactly when each of `name` (1 to 100 characters), `avatar_url` (a URL) and `email` (an address) is absent or a string meeting its check, and the fields are taken as given |
| UsersSyncRoute.ParseBodyAccepts | src/app/api/users/sync/route.ts:13-17 | an empty object is accepted, and so is an object holding only a 1-to-100-character name |
| UsersSyncRoute.BaseUsername | src/app/api/users/sync/route.ts:46 | the base username is non-empty and holds no upper-case ASCII letter |
| UsersSyncRoute.BaseUsernameShape | src/app/api/users/sync/route.ts:46 | the base username is never empty, has no '@' and no upper-case ASCII letter, and is "user" without an e-mail |
| UsersSyncRoute.BaseUsernameOfAddress | src/app/api/users/sync/route.ts:46 | for "local@domain" the base username is the lower-cased local part, or "user" when that part is empty |
| UsersSyncRoute.UniqueUsername | src/app/api/users/sync/route.ts:47 | the username is the base, a '-', and the first (up to) 8 characters of the user id |
| UsersSyncRoute.Sync | src/app/api/users/sync/route.ts:21-85 | the route writes at most two rows, and a successful reply is 200 and ends with the profile upsert |
| UsersSyncRoute.SyncDecides | src/app/api/users/sync/route.ts:50-75 | for a verified caller with an accepted body: a failed lookup is 400; a missing user is inserted first (a failed insert is 400 with nothing written); then the profile upsert with the name or the base username and the avatar URL or "", answered 200 with the user id, or 400 should the upsert fail |
| UsersSyncRoute.SyncRefuses | src/app/api/users/sync/route.ts:21-42 | a failed rate check is answered 429 or 500 "users/sync failed", a missing bearer token 401, and a body the schema rejects 400 "Invalid request body", each with nothing written |
| UsersSyncRoute.VerificationNotCaught | src/app/api/users/sync/route.ts:32-35 | a token that fails verification gives 500 "users/sync failed" (or 429 by message), never 403, and writes nothing |
| UsersSyncRoute.InsertsUserOnlyWhenMissing | src/app/api/users/sync/route.ts:50-66 | a user row is inserted only when the lookup found none, and then first, with role "user" and the derived unique username |
| UsersSyncRoute.UpsertDefaults | src/app/api/users/sync/route.ts:68-75 | a 200 reply ends with the profile upsert, whose name defaults to the base username and avatar to ""; a user row was inserted before it exactly when none existed |
| UsersSyncRoute.RejectsBadName | src/app/api/users/sync/route.ts:13-14 | a name outside 1 to 100 characters is 400 "Invalid request body" and writes nothing |
| UsersSyncRoute.Post | src/app/api/users/sync/route.ts:23-24 | the sync route counts one hit against `req.ip` with limit 20, then replies as the sync logic says |
| Middleware.Headers.Set | src/middleware.ts:5-8 | setting a header replaces that one name's value and leaves the others |
| Middleware.SecurityHeaders | src/middleware.ts:4-17 | the four fixed security headers are always present, with their values; HSTS is present exactly when the host is not localhost or 127.0.0.1 |
| Middleware.WithSecurityHeaders | src/middleware.ts:4-17 | the response's headers become the old ones overridden by the security headers for the request's host |
| Middleware.Blocks | src/middleware.ts:19-37 | only a non-OPTIONS request under "/api/" without a non-empty `authorization` header can be blocked; `Middleware.BlocksSpec` gives the converse |
| Middleware.BlocksSpec | src/middleware.ts:19-37 | a request is refused exactly when its path starts with "/api/", it is not OPTIONS, and it has no non-empty `authorization` header |
| Middleware.Handle | src/middleware.ts:19-41 | a refused request gets 401 "Missing Authorization header" with only a JSON content type; every other request the middleware runs on passes with exactly the security headers |
| Feed.ToQuestion | src/hooks/useFeed.ts:60-72 | a missing author name or avatar becomes "" and a missing counter 0; the other fields are copied |
| Feed.MapRows | src/hooks/useFeed.ts:60 | the mapping keeps the length and maps each row in place |
| Feed.Compare | src/hooks/useFeed.ts:76-81 | the comparator is 0 exactly when both authors are in the same group and the dates are equal; across groups it puts the followed author first |
| Feed.PrecedesMeaning | src/hooks/useFeed.ts:76-81 | the comparator puts followed authors before unfollowed ones and, within a group, newer before older |
| Feed.PrecedesTotal | src/hooks/useFeed.ts:76-81 | any two questions are ordered one way or the other |
| Feed.PrecedesTransitive | src/hooks/useFeed.ts:76-81 | the comparator's order is transitive |
| Feed.Insert | src/hooks/useFeed.ts:76 | inserting into a sorted list keeps it sorted and adds exactly that question |
| Feed.SortFeed | src/hooks/useFeed.ts:76-81 | the sorted list is ordered by the comparator and is a permutation of its input |
| Feed.SortedFeedOrder | src/hooks/useFeed.ts:76-81 | in a sorted list no unfollowed question precedes a followed one, and within a group no question precedes a newer one |
| Feed.FollowedIds | src/hooks/useFeed.ts:17-28 | the followed ids are empty when signed out or on a non-ok response, exactly the fetched ids otherwise, and nothing when the request rejects |
| Feed.PageRange | src/hooks/useFeed.ts:43-44 | the range holds `pageSize` rows |
| Feed.LoadMoreStep | src/hooks/useFeed.ts:30-91 | a call is skipped exactly when the guard says so, and a requested range holds `pageSize` rows; the lemmas below state the resulting state |
| Feed.LoadMoreGuard | src/hooks/useFeed.ts:32-33 | a call while loading, after the last page without a reset, or without configuration changes nothing; a call whose request rejects stays loading |
| Feed.LoadMoreRange | src/hooks/useFeed.ts:42-44 | the requested range is `currentPage * pageSize` to `from + pageSize - 1`, where `currentPage` is 0 on a reset |
| Feed.LoadMoreNotOk | src/hooks/useFeed.ts:55-58 | a non-ok page only clears `loading`; after a reset the reset state stays, otherwise list, page and hasMore are unchanged |
| Feed.LoadMoreLoaded | src/hooks/useFeed.ts:74-88 | the new list is a permutation of the old list plus the fetched page (of the page alone on a reset), sorted by the comparator; the page advances; more is expected exactly when a full page arrived |
| Feed.FeedHook.constructor | src/hooks/useFeed.ts:10-15 | the hook takes the given page size, or 10 without one, and starts with an empty list on page 0, not loading, expecting more |
| Feed.FeedHook.Start | src/hooks/useFeed.ts:33-38 | past the guard the hook is loading, and a reset empties it back to page 0 |
| Feed.FeedHook.Receive | src/hooks/useFeed.ts:74-88 | a received page updates list, page, hasMore and loading as the load step says |
| Feed.FeedHook.LoadMore | src/hooks/useFeed.ts:30-91 | `loadMore` changes the hook's state and requests a range exactly as the load step says |

## Where the code and the design description differ

The model follows the code in each case:

- A window ends when its expiry is strictly earlier than `now` (`src/lib/rate-limiter.ts:33`,
  `src/lib/__tests__/rate-limiter.test.ts:13`). A call at exactly `expiresAt` still counts
  against the old window. The design describes `now >= expiresAt` as the reset condition, and a
  call made exactly one interval later as starting afresh. `RateLimiterScenarios.WindowBoundary`
  shows the call at the expiry being rejected.
- The durable store rewrites `expires_at = now + interval` on every hit
  (`src/lib/rate-limiter.ts:44`), so each hit extends the window. The design calls the window
  fixed.
- A failed read of the durable store's row resets the count to 1 (`src/lib/rate-limiter.ts:33`).
  So a read error lets a request through.
- The durable store reads, then writes, as two separate calls. The design asks for one atomic
  upsert.
- The limiter does not check that the token is non-empty. A blank `x-forwarded-for` header gives
  the empty token (`Http.BlankForwardedForGivesEmptyToken`).
- The 429 status is chosen by comparing the thrown message with "Rate limit exceeded"
  (`src/app/api/comments/route.ts:79`). It is not chosen by error type.
- The user-sync route does not catch a failed token verification. Such a request gets 500, where
  the other routes give 403.

## Left out

- Concurrency: the two store calls are modelled as sequential steps. Interleavings of several
  server instances, and the atomicity the design asks of the durable store, are not modelled.
- Clocks and dates: `Date.now()`, the ISO expiry strings and `new Date(...).getTime()` are
  integers in milliseconds.
- Supabase, Firebase and JWT calls are outcomes given as inputs: the token verifier is a function
  parameter, and query results and write errors are records. This covers the service client,
  the queries made through the row-level-security client, and token verification.
- Building the row-level-security client (`getSupabaseForUser`, `src/lib/supabaseRls.ts:20-28`)
  throws when its environment variables are missing. Every route builds it inside its `try`, so
  the source then answers 500 with the route's fixed text. The model assumes the client is
  always built and has no such path.
- Profiles.ReduceProfiles: the `reduce` over profiles is modelled as this method, a loop that
  builds the same index as the function `Profiles.ProfileIndex`. The route functions use the
  function, since a function cannot call a method.
- `firebaseUidToUuid` (in `src/lib/id.ts`) is folded into the verified user id. `src/lib/id.ts`
  and `src/lib/utils.ts` are not part of this model.
- Zod's `.url()` and `.email()` checks are predicates given as parameters (`Validators`).
- The user-sync route's `catch` branch for a `ZodError` is not modelled: the body is checked with
  `safeParse`, which reports failure instead of throwing, so nothing in the handler raises one.
- The `uniqueTokenPerInterval` option passed by the user-sync route is ignored by `rateLimit`.
  It is not modelled.
- Text.Lower: JavaScript's full-Unicode `toLowerCase` is not modelled; `Text.Lower` maps ASCII
  letters only.
- UTF-16 lengths: strings are sequences of characters, and a length is a count of characters.
  JavaScript's `.length` counts UTF-16 code units, so a character outside the Basic Multilingual
  Plane counts 2 there and 1 here. The length bounds therefore differ from the source's for such
  text: 1 to 1000 trimmed characters of comment content (`CommentsRoute.ValidateComment`), at
  least 3 trimmed characters of question text (`QuestionsRoute.QuestionText`), and 1 to 100
  characters of user-sync name (`UsersSyncRoute.ParseBody`). For example, 600 emoji pass the
  model's 1000-character limit, while the source rejects them as "Content too long".
- Query parameters: `page` and `pageSize` are integers or absent. A non-numeric value, which
  gives `NaN` in the source, is not modelled.
- The middleware's `config.matcher` (`src/middleware.ts:43-45`) is not modelled. It keeps the
  middleware from running on `_next/static`, `_next/image` and `favicon.ico` requests, whose
  responses get no security headers. `Middleware.Handle` is `middleware(req)` for a request the
  middleware runs on.
- Headers: names are stored as written. The case-insensitivity of the `Headers` object is not
  modelled.
- Module load: building a route's limiter at module load, and that load throwing when
  credentials are missing, are not modelled; `RateLimiter.RateLimit` models the build itself.
- React: state setters take effect at once, in order. Re-rendering, batching, the `useEffect`
  subscriptions (the first load, and the `follow-change` listener calling `refresh`) and
  overlapping calls are not modelled.
- Feed.SortFeed: `Array.prototype.sort` is modelled by an insertion sort under the same
  comparator. The model proves the order and the permutation, but not that equal elements keep
  their relative order.
- Feed.FollowedIds: a follows response whose body is not an array of rows is not modelled.
- Feed.LoadMoreStep: a page body that is not an array is not modelled; it would reject the
  promise.
- Error replies carry their status and their `message` text, both the fixed 400 texts and the
  route's fixed 500 text. The extra fields beside it (`details`, and `code`, `hint` and `stack`
  where a route adds them) are not modelled.
- Logging (`console.*`) and the UI components are not modelled.
