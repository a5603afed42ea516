# avatars.io in Dafny

A model of the avatar redirect service. It covers three parts:

- **Twitter redirect.** `/twitter?username=…&size=…` lower-cases the handle and refuses an empty one. It looks the handle up in a shared cache. On a miss it asks the Twitter `users/show` endpoint for the profile image, falling back to the default placeholder image on any failure, and caches the answer. It then redirects (302) to the requested size variant of the image URL.
- **Gravatar redirect.** `/gravatar?email=…&size=…|s=…` refuses an empty email, picks the size, and redirects to the avatar addressed by the MD5 hash of the trimmed, lower-cased email.
- **Environment secret accessor.** It supplies the Twitter bearer token.

Modules, one per file:

| file | module | models |
|---|---|---|
| `wrappers.dfy` | `Wrappers` | `Option`, and `Result` carrying an error message |
| `strings.dfy` | `Strings` | Go's `strings.ToLower`, `strings.TrimSpace`, `strings.Index` (`FirstIndexOf`) and `strings.Replace(s, old, new, 1)` (`ReplaceFirst`) |
| `http.dfy` | `Http` | query parameters (`url.Values.Get`), `http.Error`, `http.Redirect` as a response value |
| `secrets.dfy` | `Secrets` | `secrets.Env.Get` over an environment map; the `(string, error)` reply |
| `lru.dfy` | `Lru` | the cache's `Get` and `Add`, as a class with its entries and a trace of the calls made on it |
| `twitter.dfy` | `Twitter` | size variants, the profile lookup's fallback policy, the request handler (class `Handler`) and `NewHandlerFunc` |
| `twitter_tests.dfy` | `TwitterTests` | the Twitter handler tests as scenarios with a mock accessor and upstream |
| `gravatar.dfy` | `Gravatar` | hash normalisation, size choice and the redirect URL |
| `gravatar_tests.dfy` | `GravatarTests` | the Gravatar handler tests as scenarios with the digest left abstract |

Things outside the program are parameters:

- The network is a function `upstream` from the outbound request (URL and `Authorization` header) to its outcome. The request could not be built, the transport failed, the body did not decode, the body was JSON `null`, or it decoded with a given image field.
- The secret accessor is a function from key to reply.
- MD5 with hex formatting is a function `md5Hex` that the model leaves uninterpreted.
- `Handler.requests` is a ghost log of the profile lookups the handler starts, so the contracts can say when the endpoint is asked. A lookup whose request cannot be built is logged too, although nothing reaches the network then.

Behaviour of the code that is easy to misread:

- Only an empty username is refused. A whitespace-only one is lower-cased and looked up like any other.
- The size test is case-sensitive and runs before lower-casing, so `"BIGGER"` counts as `"normal"`.
- A cached empty URL counts as a miss.
- The profile decodes the field `profile_image_url` (twitter/twitter.go:19). The handler tests' mock answers with `profile_image_url_https` (twitter/twitter_test.go:195). Against that mock, the code as written would decode an empty field and serve the default image (see "## Findings"). The model does not name JSON fields. The scenarios give the decoded image field directly.

## Model

| member | source | states |
|---|---|---|
| `Secrets.EnvGet` | secrets/env.go:15-26 | succeeds exactly when the key is non-empty and set, returning the stored value even if empty; an empty key gives "please provide a secret key" without the environment being consulted, an unset key "provided key K is unset"; every refusal carries the empty value |
| `Secrets.EmptyKeyIgnoresEnvironment` | secrets/env.go:16-18 | the empty-key answer is the same whatever the environment holds |
| `Secrets.SetThenGet` | secrets/env.go:20-25 | after setting a non-empty key, reading it returns the value set with no error; the answer for every other key is unchanged |
| `Strings.LowerChar` | twitter/twitter.go:92 | an ASCII capital becomes its small letter, every other character is kept, the result is never a capital, and white space stays white space |
| `Strings.Lower` | twitter/twitter.go:92 | the result has the input's length and holds, at each position, the lower-cased character of the input |
| `Strings.LowerIdempotent` | twitter/twitter.go:92 | a lower-cased handle has no upper-case letter and lower-casing it again changes nothing |
| `Strings.TrimSpace` | gravatar/gravatar.go:14 | the result is a slice of the input, only white space was removed on either side, and it neither starts nor ends with white space |
| `Strings.TrimSpaceByBounds` | gravatar/gravatar.go:14 | any slice with only white space outside it and none at its ends is the trimmed form, so the trimmed form is unique |
| `Strings.TrimSpaceOfTrimmed` | gravatar/gravatar.go:14 | a string without white space at either end is left as it is |
| `Strings.LowerTrimSpace` | gravatar/gravatar.go:14 | lower-casing and trimming commute |
| `Strings.TrimSpaceIgnoresSurroundingSpace` | gravatar/gravatar.go:14 | white space added on either side of a string does not change its trimmed form |
| `Strings.FirstIndexOf` | twitter/twitter.go:70-73 | a found position is an occurrence with none before it; when nothing is found there is no occurrence anywhere |
| `Strings.ReplaceFirst` | twitter/twitter.go:70-73 | when the pattern occurs, its earliest occurrence is replaced and the text around it kept; with no occurrence the input is returned unchanged |
| `Strings.ReplaceFirstKeepsRest` | twitter/twitter.go:70-73 | after replacing the first occurrence, the text before and after it is kept and the length changes by the length difference |
| `Twitter.NormalizedSize` | twitter/twitter.go:55-60 | the result is one of bigger, mini, normal, original; a recognised token is returned unchanged, anything else becomes "normal" |
| `Twitter.NormalizedSizeIdempotent` | twitter/twitter.go:55-60 | normalising twice is normalising once |
| `Twitter.UpperCaseSizeIsNormal` | twitter/twitter.go:56-57 | "BIGGER", "" and "unknown" all become "normal" |
| `Twitter.SizedProfileImageURL` | twitter/twitter.go:62-74 | "normal" (or anything unrecognised) keeps the URL; "original" cuts out the first "_normal"; "bigger"/"mini" put the token in place of the first "normal"; a URL without that text is unchanged |
| `Twitter.SizedURLDependsOnNormalizedSize` | twitter/twitter.go:63-67 | the variant depends only on the normalised size, and an unrecognised size returns the URL unchanged |
| `Twitter.NormalMarkerIsFirst` | twitter/twitter.go:70-73 | in `stem + "_normal" + ext` with no "n" in the stem, the first "normal" and the first "_normal" are the suffix marker |
| `Twitter.TokenVariant` | twitter/twitter.go:73 | with no "n" in the stem, the "bigger" or "mini" variant of `stem_normal.ext` is `stem_` followed by the token and `.ext` |
| `Twitter.OriginalVariant` | twitter/twitter.go:69-71 | with no "n" in the stem, the "original" variant of `stem_normal.ext` is `stem.ext` |
| `TwitterTests.TestImageVariants` | twitter/twitter_test.go:92-178 | the test image keeps its URL for "" and "unknown" and becomes `_bigger.jpg`, `_mini.jpg` and `.jpg` for the other sizes |
| `Twitter.ShowRequest` | twitter/twitter.go:23-32 | the URL is the show endpoint, "?screen_name=", then the handle verbatim; the header is "Bearer " then the token; both parts can be read back |
| `Twitter.ShowRequestInjective` | twitter/twitter.go:23-32 | two lookups send the same request exactly when handle and token agree |
| `Twitter.ResolvedImageURL` | twitter/twitter.go:25-52 | never empty; a decoded non-empty image URL is used as is; a request, transport or decode failure, a `null` body or an empty field gives the default image |
| `Twitter.ResolvedAsWritten` | twitter/twitter.go:42-52 | the fallback as the code is written: a `null` body has no result (the nil dereference panics); every other outcome gives what `ResolvedImageURL` gives |
| `Twitter.NullBodyPanics` | twitter/twitter.go:42-48 | the `null` body is the only outcome where the code as written and the corrected fallback differ; the corrected one serves the default image |
| `Twitter.UserProfileImageURL` | twitter/twitter.go:22-53 | the lookup sends the show request for the handle with the bearer token and returns the corrected fallback of its outcome: the default image or the decoded URL, never "" |
| `Twitter.Username` | twitter/twitter.go:92 | the cache key has no capitals, has the parameter's length, and is empty exactly when the `username` parameter is missing or empty |
| `Lru.Cache.constructor` | twitter/twitter.go:77 | a new cache is empty |
| `Lru.Cache.Get` | twitter/twitter.go:105-106 | reports whether the key is cached and, if so, its value; entries are unchanged and the lookup is recorded |
| `Lru.Cache.Add` | twitter/twitter.go:120 | the key now maps to the value, nothing else changes, and the store is recorded |
| `Twitter.Handler.constructor` | twitter/twitter.go:90-91 | the handler holds the given token and cache and has sent no request |
| `Twitter.Handler.Serve` | twitter/twitter.go:90-130 | empty lower-cased username: 400 with the message, no cache call and no outbound request; otherwise one cache lookup under the lower-cased name, and on a miss (or a cached "") exactly one profile lookup logged and one `Add` of its result, then a 302 to the sized variant of the cached or resolved URL |
| `Twitter.ServeTwice` | twitter/twitter.go:104-124 | two requests for the same handle, in any letter case, reach the endpoint at most once and redirect to variants of the same cached URL |
| `Twitter.TokenResult` | twitter/twitter.go:82-85 | a failing accessor reply becomes "could not get twitter token: " followed by its error; otherwise the token is the reply's value |
| `Twitter.NewHandlerFunc` | twitter/twitter.go:76-88 | asks for TWITTER_BEARER_TOKEN; on failure returns no handler and the prefixed error; otherwise a new handler with that token, a new empty cache and no requests sent |
| `Twitter.MissingEnvironmentToken` | twitter/twitter.go:82-85 | with the environment accessor and the token unset, construction fails with "could not get twitter token: provided key TWITTER_BEARER_TOKEN is unset" |
| `TwitterTests.NewHandlerFuncErrorScenario` | twitter/twitter_test.go:40-52 | an accessor failing with the key's name gives "could not get twitter token: TWITTER_BEARER_TOKEN" |
| `TwitterTests.MissingUsernameScenario` | twitter/twitter_test.go:63-73 | a request without a username gets 400 and the username message |
| `TwitterTests.UserNotFoundScenario` | twitter/twitter_test.go:75-90 | an unknown user, modelled as an answer that decodes to an empty image field, is redirected to the default image |
| `TwitterTests.UserFoundBiggerScenario` | twitter/twitter_test.go:109-125 | "charlyx" at size "bigger" redirects to the test image's `_bigger.jpg` URL |
| `TwitterTests.MockFieldMismatchScenario` | twitter/twitter_test.go:193-199 | with the mock answer as written, whose only field is one the profile does not decode, "charlyx" at size "bigger" redirects to the default image's `_bigger.png` variant, not to the expected URL |
| `Gravatar.Hash` | gravatar/gravatar.go:13-17 | the digest of the email trimmed and lower-cased; the two steps can be taken in either order |
| `Gravatar.HashIgnoresCase` | gravatar/gravatar.go:13-17 | emails equal after lower-casing have the same hash |
| `Gravatar.HashIgnoresSurroundingSpace` | gravatar/gravatar.go:13-17 | white space around an email does not change its hash |
| `Gravatar.PlainEmailHash` | gravatar/gravatar.go:13-17 | a trimmed lower-case email is hashed as it is |
| `Gravatar.ChosenSize` | gravatar/gravatar.go:28-38 | a non-empty `size` is used verbatim; else a non-empty `s`; else "80"; never empty |
| `Gravatar.Handle` | gravatar/gravatar.go:19-46 | an empty email gives 400 with the email message; otherwise a 302 to the avatar URL of the hash at the chosen size; it redirects exactly when an email is given |
| `Gravatar.AvatarURL` | gravatar/gravatar.go:41 | the target is "https://www.gravatar.com/avatar/", then the hash, then "?s=" and the size, each readable back from its place |
| `Gravatar.HandleIgnoresEmailCaseAndSpace` | gravatar/gravatar.go:13-45 | requests whose emails differ only in case or surrounding white space, with the same size parameters, get the same response |
| `Http.QueryGet` | twitter/twitter.go:92 | the first value given for the name, or "" when the name is absent or has no value |
| `Http.BadRequest` | twitter/twitter.go:96 | status 400 with the message followed by one newline as the body |
| `Http.Found` | twitter/twitter.go:128 | status 302 with the given URL as the location |
| `GravatarTests.MissingEmailScenario` | gravatar/gravatar_test.go:16-25 | no email: 400 with the email message |
| `GravatarTests.DefaultSizeScenario` | gravatar/gravatar_test.go:27-40 | "mon@email" without a size redirects to its hash at size 80 |
| `GravatarTests.GivenSizeScenario` | gravatar/gravatar_test.go:42-55 | "mon@email" with size 200 redirects to its hash at size 200 |

## Left out

- The HTTP request to the show endpoint, the `http.Client` and JSON decoding (twitter/twitter.go:23-46) are network I/O. They are the `upstream` parameter and its `Outcome`. The JSON field name is not modelled.
- Lru.Cache.Add: least-recently-used eviction and the capacity of 128 (twitter/twitter.go:77) are not modelled, because the cache library's source is not part of this model. A real `Add` into a full cache also drops the least recently used entry. `Lru.Cache.Get` does not model the recency update either; the call is only recorded in `ops`.
- The error branch of creating the cache (twitter/twitter.go:78-80) is not modelled. It cannot be taken with the fixed capacity of 128.
- Thread-safety of the shared cache is concurrency and is not modelled. Requests are served one after another.
- `log.Printf` and `log.Print` are observability only.
- MD5 and its hex formatting (gravatar/gravatar.go:15-16) are foreign crypto, so they are the uninterpreted parameter `md5Hex`.
- Strings.LowerChar: lower-cases ASCII letters only. Go's `strings.ToLower` also maps non-ASCII upper-case letters.
- Parsing and percent-decoding of the query string are not modelled: a query arrives as decoded parameter lists.
- Strings are sequences of Unicode characters, while Go strings are bytes. A decoded parameter that is not valid UTF-8 cannot be represented, so the model does not cover `strings.ToLower` replacing such bytes by U+FFFD.
- The response is modelled as status plus body or `Location`. Left out: the content-type headers of `http.Error`, the small HTML body of `http.Redirect`, and `http.Redirect`'s rewriting of a URL without scheme or host relative to the request path.
- The handle is put into the request URL verbatim, and the model leaves what `http.NewRequest` makes of that text to the `upstream` outcome. `http.NewRequest` parses the URL and keeps its query as given. So a `#` in the handle starts a fragment that is never sent, an `&` adds a query parameter, and a control character makes the parse fail (the `RequestError` outcome).
- Http.Found: the location is the URL as given. `http.Redirect` percent-escapes the non-ASCII bytes of the target in the `Location` header, so a size of "é" is sent as `%C3%A9`.
- Twitter.UserProfileImageURL: follows the corrected fallback for a JSON `null` body and serves the default image there; the code as written panics (see "## Findings").
- `server/server.go`, `main.go` (route wiring, `ListenAndServe`), `secrets/gcp.go` (Google Secret Manager client) and `usage/usage.go` (a static page) are not part of this model.

## Findings

| source | as written | input that shows it | evidently intended | confidence | as-written member | corrected member |
|---|---|---|---|---|---|---|
| twitter/twitter.go:42-48 | `Decode(&userProfile)` decodes into a pointer to the pointer. A JSON `null` body sets `userProfile` to nil without an error, and `userProfile.ImageURL` then dereferences nil and panics | a show endpoint answering the body `null` | the default image, as for every other failed lookup | not executed | `Twitter.NullBodyPanics` | `Twitter.ResolvedImageURL` |
| twitter/twitter_test.go:193-199 | the mock answers `{"profile_image_url_https": …}`, while the profile decodes `profile_image_url` (twitter/twitter.go:19), so the decoded field is empty | Test_HandlerUserFoundBigger: "charlyx" at size "bigger" | the mock answers the field the code reads, and the test expects the sized test image | not executed | `TwitterTests.MockFieldMismatchScenario` | `TwitterTests.UserFoundBiggerScenario` |
