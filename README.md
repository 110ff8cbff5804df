# Strava Desk Treadmill totals: a Dafny model

`main.go` is a small command-line program. It gets a working Strava access
token, refreshing it through the OAuth `refresh_token` grant when the cached
one is blank or rejected. It then downloads every page of the athlete's
activities, 200 per page, and counts the activities named "Desk Treadmill"
(trimmed, case-insensitive) and sums their distances.

This project models the deterministic core of that program. Every network
exchange is an input value:
- `Answers`: what each of the three attempts of one page fetch met.
- `RefreshAnswer`: what a refresh grant returned.
- `ProbeAnswer`: what the probe with the cached token returned.

Sleeps are recorded as the durations requested, in nanoseconds, as
`time.Duration` counts them.

The modules follow the program's parts:

| file | module | models |
|---|---|---|
| `wrappers.dfy` | `Wrappers` | `Option` and `Result` |
| `strings.dfy` | `Strings` | `strings.TrimSpace`, `unicode.IsSpace`, and `strings.EqualFold` against an ASCII pattern |
| `helpers.dfy` | `Helpers` | `backoff` with Go's int64 arithmetic, `truncate` over bytes, `rateLimitUsage.String` |
| `fetcher.dfy` | `Fetcher` | `fetchActivitiesPage`: the attempt loop as a method, proved against a closed-form function `Fetch` |
| `tokens.dfy` | `Tokens` | the decisions of `ensureAccessToken` and `refreshAccessToken` |
| `label.dfy` | `DeskLabel` | the name test of the summing loop |
| `aggregate.dfy` | `Aggregate` | the summing loop, as a method proved against `Filter` and `TotalDistance` |
| `driver.dfy` | `Driver` | the pagination loop of `main`, with its run described as a trace of `Call`s |
| `app.dfy` | `App` | `main` as a whole: ensure a token, fetch all pages, sum, report the rotation notice |

The pagination loop never stops on its own while the server keeps answering
429. For that reason the model consumes its answers from finite sequences. A
run that uses them all up before the loop stops ends as `Unfinished`.

The loop's body is split into methods: `ServePage`, `FirstTry`, `Reauthorize`,
`RetryPage` and `TakePage`. Each handles one part of the body, in the order
the body runs. `FetchAllActivities` loops over `ServePage`.

A run is described by its list of calls of `fetchActivitiesPage`. Each `Call`
records the page asked for, the token sent, whether it was the retry after a
refresh, and the result. The predicates over that list are:
- `IsTrace`: each call follows from the one before, as the loop's branches dictate.
- `Answered`: each call got its own fetch answer and carried the token then in use.
- `Concludes`: how the run ended, given its last call.

## Model

| member | source | states |
|---|---|---|
| Strings.TrimSpace | main.go:130 | The result is empty exactly when the name is all white space. Otherwise it starts and ends with a non-space rune. It is never longer than the input. |
| Strings.TrimSpaceIdempotent | main.go:130 | Trimming a trimmed name changes nothing. |
| Strings.TrimSpaceIsSlice | main.go:130 | The trimmed name is a slice s[i..j] of the name, with only white space before i and after j: nothing inside is touched. |
| Strings.TrimSpaceKeeps | main.go:130 | Any name that neither starts nor ends with white space is its own trim. |
| Strings.TrimSpaceBlankPrefix | main.go:130 | White space put in front of any name does not change its trim. |
| Strings.TrimSpaceBlankSuffix | main.go:130 | White space put after any name does not change its trim. |
| Strings.IsSpace | main.go:130 | The white space `unicode.IsSpace` reports: tab, newline, vertical tab, form feed, carriage return, space, U+0085, U+00A0 and the Unicode White_Space runes above. Definition only. |
| Strings.EqualFoldAscii | main.go:130 | `strings.EqualFold` against an ASCII pattern: same length, and each rune is in the simple-fold orbit of the pattern's rune. Definition only; its partner is EqualFoldAsciiLower. |
| Strings.FoldsToAscii | main.go:130 | Between two ASCII runes, folding is equality once both are lower-cased. |
| Strings.EqualFoldAsciiLower | main.go:130 | For an ASCII name, EqualFold against an ASCII pattern holds exactly when both lower-cased are equal. |
| Helpers.Int64 | main.go:320 | The result is in the int64 range and congruent to the input modulo 2^64. It equals the input when the input is already in range. |
| Helpers.ShiftOne | main.go:320 | `1 << s` is 2^s for shifts below 63. |
| Helpers.Backoff | main.go:315-324 | The delay is never above 30 seconds. |
| Helpers.BackoffCappedDoubling | main.go:315-324 | For attempts up to 34 (anything below 1 counts as 1), the delay is min(2^(attempt-1), 30) seconds, between 1 and 30 seconds. |
| Helpers.BackoffValues | main.go:315-324 | Attempts 0 and 1 wait 1 s, attempt 2 waits 2 s, attempt 3 waits 4 s, and attempt 10 is capped at 30 s. |
| Helpers.BackoffMonotone | main.go:315-324 | A later attempt never waits less, up to attempt 34. |
| Helpers.BackoffWrapsAt35 | main.go:320-321 | At attempt 35 the int64 nanosecond product wraps and the delay is negative. |
| Helpers.Truncate | main.go:326-331 | A string of at most n bytes comes back unchanged. A longer one becomes exactly its first n bytes followed by the three bytes of "…". |
| Helpers.TruncateIdempotent | main.go:326-331 | Truncating twice to the same length gives the same bytes as truncating once. |
| Helpers.RateLimitString | main.go:221-226 | The rendering is empty exactly when both headers are empty. |
| Helpers.RateLimitRoundTrip | main.go:221-226 | "usage=U limit=L" can be read back into the header pair it came from, provided U holds no space. |
| Fetcher.Retries | main.go:247-280 | An attempt is retried after a transport error, an unreadable body or a 429; a build error and every other status end the loop. Definition only; FirstSettled and FetchSettlesAt state its use. |
| Fetcher.FirstSettled | main.go:233-291 | Every attempt before the returned index is retried, and the attempt at it is not. |
| Fetcher.Backoffs | main.go:247-281 | The sleep after the i-th retried attempt is backoff(i), the one after the last attempt included although no attempt follows it. |
| Fetcher.Fetch | main.go:229-295 | Between 1 and 3 attempts. No more sleeps than attempts. Items only come with status 200. |
| Fetcher.FetchActivitiesPage | main.go:229-295 | The attempt loop computes exactly `Fetch` of its answers: the result triple, the sleeps and the number of attempts. |
| Fetcher.SumBackoffs | main.go:247-281 | The first n retry sleeps (n up to 5) add up to 2^n - 1 seconds. |
| Fetcher.FetchSleepBound | main.go:233-281 | Every sleep of one page fetch is between 1 and 4 seconds, and together they are at most 7 seconds. |
| Fetcher.FetchExhausted | main.go:233-294 | When all three attempts are retried, there are three attempts and sleeps of 1, 2 and 4 s. The page is empty and carries the last status and headers seen. |
| Fetcher.NothingSeen | main.go:230-231 | With no response there is no status (0) and no rate-limit header. |
| Fetcher.FetchNoResponse | main.go:247-251 | Three transport errors give an empty page, status 0 and no headers. |
| Fetcher.FetchSettlesAt | main.go:234-291 | The first attempt that is not retried ends the fetch, with no sleep after it; the sleeps before it are backoff(1), ..., backoff(k). A build error gives status 0 and the headers of the last earlier response. A reply gives its own status and headers. A 200 with a decodable body gives its items. A 200 with a bad body, or any other status, gives no items. |
| Tokens.RefreshAccessToken | main.go:175-213 | Fails with missing credentials exactly when the client id, the secret or the refresh token is blank. With credentials present: a build error gives exactly RequestBuildFailed, a transport error exactly TransportFailed, a non-200 reply exactly Rejected with that status and body, a 200 whose body does not decode exactly UnmarshalFailed, and a 200 that decodes exactly success with the grant's tokens. |
| Tokens.EnsureAccessToken | main.go:148-172 | Refreshes exactly when the cached token is blank, the probe fails to connect, or the probe gets a 401. Otherwise it keeps the configured pair unchanged. |
| Tokens.EnsureBlankSkipsProbe | main.go:149-152 | With a blank cached token, the probe's outcome makes no difference. |
| DeskLabel.MatchesLabel | main.go:130 | `strings.EqualFold(s, "Desk Treadmill")`. Definition only. |
| DeskLabel.IsDeskTreadmill | main.go:130 | The name test: the trimmed name equal-folds to "Desk Treadmill". Definition only; its partner is DeskTreadmillIgnoresOuterSpace. |
| DeskLabel.DeskTreadmillIgnoresOuterSpace | main.go:130 | Adding white space before or after any name never changes whether the activity matches. |
| DeskLabel.LabelMatchesItself | main.go:130 | "Desk Treadmill" matches. |
| DeskLabel.FoldsLowerCase | main.go:130 | A lower-case name folds onto the label. |
| DeskLabel.LabelMatchesTrimmedLowerCase | main.go:130 | "desk treadmill " matches. |
| DeskLabel.FoldsKelvinSign | main.go:130 | The Kelvin sign folds onto k. |
| DeskLabel.LabelMatchesKelvinSign | main.go:130 | "DesK Treadmill", spelled with the Kelvin sign, matches. |
| DeskLabel.LabelRejectsOtherName | main.go:130 | "Run" does not match. |
| DeskLabel.LabelRejectsDoubledSpace | main.go:130 | "Desk  Treadmill" with a doubled inner space does not match. |
| Aggregate.Filter | main.go:127-134 | Keeps no more activities than it is given, and only ones the test accepts. |
| Aggregate.Aggregate | main.go:127-134 | deskCount is the number of matching activities, which is at most the number fetched. totalMeters is the sum of exactly their distances. |
| Aggregate.FilterCountsPositions | main.go:127-134 | The count equals the number of positions in the list whose activity matches. |
| Aggregate.FilterConcat | main.go:127-134 | Filtering the concatenated pages is filtering page by page. |
| Aggregate.TotalDistanceConcat | main.go:127-134 | Distances add up page by page. |
| Aggregate.TotalDistanceNonNegative | main.go:127-134 | With no negative distance, the total is not negative. |
| Aggregate.ThreeActivitiesExample | main.go:127-134 | "Desk Treadmill" 1000 m, "desk treadmill " 500 m and "Run" 5000 m give 2 activities and 1500 m. |
| Driver.FetchAllActivities | main.go:86-122 | The calls made form a trace, and each consumed its own answer with the token then in use. A retry only follows a refresh that succeeded, so a failed refresh never lets the run go on. The run ended as its last call dictates; it is unfinished only when the loop would go on and the answer it needs next is missing: the refresh after a 401, the fetch of the retry after a refresh that succeeded, or the fetch of the next first try. `all` is the items of the 200 calls in call order. The sleeps are each call's backoffs plus 60 s after each first-try 429. One refresh is used per first-try 401, and the tokens are those the latest refresh granted, or the starting pair. |
| Driver.ServePage | main.go:88-121 | One pass of the loop's body keeps the calls made so far, adds the first try of the current page and at most the retry that follows a refresh, and either keeps the loop invariant or ends the run. |
| Driver.FirstTry | main.go:88-89 | The first try of a page uses the current page and access token. Its call extends the trace. |
| Driver.Reauthorize | main.go:92-105 | After a first-try 401 there is exactly one refresh and at most one more call, the retry. A failed refresh is fatal. Otherwise the same page is retried with the new access token. |
| Driver.RetryPage | main.go:101-105 | The retry after a refresh is exactly one call, a retry of the same page. Anything but a 200 is fatal. A 200 continues with that retry's items. |
| Driver.TakePage | main.go:115-121 | A 200 appends its items. A short page ends the run as done; a full one moves on to the next page. |
| Driver.Extend | main.go:88-122 | A call that follows the last one and uses the next answer extends the trace. |
| Driver.PageNumber | main.go:86-121 | Each call asks for page 1 plus the number of 200s before it, so pages are kept once each, in order. |
| Driver.OkPagesIncrease | main.go:115-121 | A page served with a 200 is never asked for again. |
| Driver.ShortPageIsLast | main.go:118-120 | A 200 with fewer than 200 items is the last call, an empty or unparsable page included. |
| Driver.RateLimitedRetriesSamePage | main.go:106-110 | After a first-try 429 the same page is asked for again, with no refresh and nothing appended. |
| Driver.UnauthorizedRetriesOnce | main.go:92-105 | After a first-try 401 the next call is the retry of the same page, after exactly one more refresh. |
| Driver.FullBeforeLast | main.go:115-121 | Every 200 before the last call was a full page. |
| Driver.WholePages | main.go:115-121 | When no page holds more than 200 items, the items before the last call come in whole pages of 200. |
| Driver.PagesOfDoneRun | main.go:115-121 | A completed run made |all| / 200 + 1 calls with a 200. When the total is a multiple of 200, the last page is empty. |
| Driver.TwoUnauthorizedIsFatal | main.go:92-105 | Two 401s in a row means the second answered the retry. It is the last call, and the run failed on it. |
| Driver.FailedRefreshIsFatal | main.go:92-97 | When the refresh after a first-try 401 fails, the run ended on that failure, even when no fetch answer remains. |
| Driver.TokensKeptWithoutGrant | main.go:92-99 | Without a successful refresh, the starting tokens stay in use. |
| App.Run | main.go:72-145 | A failed ensureAccessToken is fatal before any page is fetched. Otherwise the calls answer the fetch and refresh answers in turn from the ensured tokens, and the run ended as its last call dictates. A report exists exactly when the run is done. It holds the count and distance of the matching activities among the 200 pages. Its rotation notice is exactly the notice for the tokens held at the end, and it can only be raised if some refresh took place. |
| App.RotationNotice | main.go:141-144 | The notice is due when the refresh token held is not empty and differs from the configured one. Definition only. |

## Left out

- HTTP requests, headers, the client timeout and JSON decoding: each exchange is an input value, and a decoded body is `Items` or `Malformed`.
- Configuration loading through viper and the process exit of `logger.Fatalf`: a fatal stop is the `Failed` end of a run.
- Logging. This includes every use of `truncate`, which only shapes log lines; the function itself is modelled.
- `time.Sleep`: the requested durations are recorded instead.
- probeToken: its result is only logged.
- The float64 miles conversion and IEEE rounding. Distances are `real`, so sums are exact.
- Activity ids are unbounded integers rather than int64; they play no part in any decision.
- Strings.EqualFoldAscii: only models strings.EqualFold against a pattern made of ASCII letters and spaces, which is the only way the program calls it. For such a pattern the fold orbits are complete: the other case, plus the Kelvin sign for k and the long s for s.
- Names are sequences of runes. Invalid UTF-8 bytes in a name, which Go reads as U+FFFD, are not modelled.
- Helpers.BackoffCappedDoubling: the capped-doubling law is stated for attempts up to 34 only. Beyond that Go's int64 arithmetic wraps, as BackoffWrapsAt35 shows; the program itself only uses attempts 1 to 3.
- Helpers.Truncate: requires n >= 0. Go's `s[:n]` panics for negative n whenever the string is longer, and every negative n reaches that slice.
- Driver.FetchAllActivities: the loop runs as long as the server keeps answering 429. The model stops with `Unfinished` once its finite answer sequences are used up.
- Driver.PagesOfDoneRun: it assumes pages of at most 200 items, as the `per_page=200` request asks. The loop itself only checks `len(pageActs) < perPage`, so a larger page simply counts as full.

## Behaviour of the code

The model reproduces these as main.go has them.

- A 200 whose body does not decode gives an empty page. That ends the run as done with what was fetched so far; it is not a fatal error.
- The error of a rejected refresh carries the whole response body, not a truncated one.
- Each refresh after a 401 is requested with the configured refresh token: main.go passes `cfg` to refreshAccessToken, not the refresh token a previous grant may have rotated. The retry does use the refreshed access token. When the server rotates refresh tokens and invalidates the old one, a second 401 in the same run would then fail to refresh. This looks like a possible defect of the program; the model keeps the behaviour as written.
