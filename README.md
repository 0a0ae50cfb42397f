# HomeLab Dashboard service registry, modelled in Dafny

HomeLab Dashboard keeps a table of the services running in a home lab. It
fills the table in two ways:

- It discovers services from a Traefik reverse proxy.
- It accepts services a user adds by hand.

It checks each service's health over HTTP. It probes the service for a REST
API, and it can log in to that API with a client that guesses the
authentication scheme. The model covers this core:

- **`Service` health check** (`dashboard/models.py`). The status a probe
  gives, the SSL and plain-HTTP fallbacks, and the fields a health check writes.
  This part also holds the unique-name table invariant and the Grafana
  panel URLs.
- **Traefik discovery and sync** (`dashboard/utils/traefik_service.py`).
  Parsing of router rules, cleaning of names, tags, and discovery. Also the
  sync loop with its detection throttle: five failures, then a five-minute
  back-off, with a re-check after seven days.
- **API detector** (`dashboard/utils/api_detector.py`). Label hints, the
  probe of 19 fixed paths, and the combined detection.
- **Views** (`dashboard/views.py`). Creating, updating and deleting manual
  services, storing credentials, forcing API detection, and the refresh
  action (sync, then a health check of every row).
- **`GenericAPIClient`** (`dashboard/utils/generic_api_client.py`).
  Normalisation of the base URL, and the login search over endpoints and
  request formats (JSON, form, HTTP Basic; an API key is used directly). It
  also makes authenticated requests with at most one re-login on a 401.
- **Encrypted fields** (`dashboard/utils/encryption.py`). What is stored
  and what is read back.

The network is a parameter of the model. Each function from a request to
its reply stands for one state of the world:

- `Models.Network` for health GETs.
- `ApiDetector.Http` for probes.
- `ApiClient.Login` and `ApiClient.Api` for the client.
- `Encryption.Cipher` for Fernet.

Times are whole seconds, and one `now` is used per operation.

The layout:

- `wrappers.dfy`: `Option` and `Result`.
- `text.dfy`: the Python string operations the code uses (`strip`,
  `rstrip`, `lower`, `in`, `split`/`join`, `capitalize`).
- `urls.dfy`: the URL normalisation that the views and the client share.
- One file per core source file: `models.dfy`, `traefik.dfy`,
  `api_detector.dfy`, `views.dfy`, `api_client.dfy` and `encryption.dfy`.

State that the source changes in place is modelled with classes:

- The `Service` row under a health check is `Models.Service`.
- The table is `Models.ServiceTable`, whose `Valid()` holds the ids and the
  unique names.
- The API client is `ApiClient.GenericApiClient`.

Each method's loop or update is proved against a specification function on
values. The properties are proved about those functions.

## Model

| member | source | states |
|---|---|---|
| Urls.NormalizeUrl | dashboard/views.py:697-700 | The normalised URL is a prefix of the URL with its scheme; only trailing `/` characters are removed, and none is left at the end |
| Urls.ExplicitSchemeIsKept | dashboard/views.py:698-700 | A URL that already starts with `http://` or `https://` is only trimmed, with nothing added in front |
| Urls.BareHostGetsHttps | dashboard/views.py:698-700 | A URL without a scheme and without a trailing slash becomes exactly `https://` + the URL |
| Urls.NormalizeNonEmpty | dashboard/utils/generic_api_client.py:37-41 | A normalised URL is never empty and starts with `h` |
| Urls.NormalizeIdempotent | dashboard/views.py:187-192 | Normalising a normalised URL that kept its scheme changes nothing |
| Urls.NormalizeNotIdempotent | dashboard/views.py:189-192 | Normalisation is not idempotent in general: `http://` becomes `http:`, which then gains `https://` |
| Encryption.GetPrepValue | dashboard/utils/encryption.py:47-71 | Absent, empty and `gAAAAA`-prefixed values are stored unchanged; any other value is stored as its ciphertext, and a failed encryption raises |
| Encryption.ToPython | dashboard/utils/encryption.py:77-101 | Absent, empty and unprefixed values are returned unchanged; a prefixed value is decrypted, and a failed decryption gives `""` |
| Encryption.RoundTrip | dashboard/utils/encryption.py:47-101 | Reading back a stored secret gives the secret, for any Fernet-like cipher |
| Encryption.PrepareTwice | dashboard/utils/encryption.py:49-54 | Preparing an already prepared value is a no-op, so nothing is encrypted twice |
| Encryption.LookalikePlaintextIsLost | dashboard/utils/encryption.py:47-101 | A plaintext that starts with `gAAAAA` but is not a token is stored as it is and reads back as `""` |
| Models.ServiceLabel | dashboard/models.py:80-81 | `str(service)` is exactly the name, then ` (`, then the status text, then `)` |
| Models.IsServiceUp | dashboard/models.py:94-115 | A code is up exactly when it is in 200-399, or is 401, 403 or 405 |
| Models.StatusCodeTable | dashboard/models.py:94-115 | 200, 301, 302, 401, 403 and 405 are up; 404, 500 and 503 are down |
| Models.HttpFallbackUrlShape | dashboard/models.py:177 | The plain-HTTP fallback URL replaces the leading `https://` with `http://` and differs from the original |
| Models.ProbeResult | dashboard/models.py:117-213 | The status is up or down; the first GET is the URL with certificate checks. Exactly one second GET happens after an SSL error, or after a connection error on an https URL. A direct response gives its code's verdict and measured time with no retry; a timeout, any other error, or a connection error on a plain URL gives down with no time. On an https connection error the status is up exactly when the plain-HTTP fallback answers up, and then the URL becomes the `http://` form and the time is the fallback's; otherwise the time is cleared |
| Models.TimeoutIsDown | dashboard/models.py:167-171 | A timeout gives down, no response time, and no retry |
| Models.SslRetriesOnce | dashboard/models.py:140-166 | An SSL error retries once without verification, and the status is that retry's verdict |
| Models.ResponseTimeKeptOnlyOnMainPath | dashboard/models.py:131-208 | The first GET keeps its measured time even when its code means down; a plain-HTTP fallback that answers with a down code is down with no response time |
| Models.CheckedRow | dashboard/models.py:83-222 | After a check: the status is up or down, `last_checked` is now, and `status_changed_at` moves exactly when the status changed. Status, response time and URL are those of `ProbeResult` on the row's URL, so the URL changes exactly when the fallback rewrote it; no other field changes |
| Models.Service.CheckHealth | dashboard/models.py:83-222 | The method's new row is `CheckedRow` of the old one, and it returns the new status, which is never unknown |
| Models.WriteKeepsNamesUnique | dashboard/models.py:40 | Writing a row whose name no other row holds keeps names unique |
| Models.RenameFreeWriteKeepsNamesUnique | dashboard/models.py:40 | Writing a row that keeps its own name keeps names unique |
| Models.GrafanaBase | dashboard/models.py:313 | The base is the Grafana URL with only its trailing `/` characters removed: a prefix with no `/` at its end, followed only by `/` |
| Models.GetEmbedUrl | dashboard/models.py:310-326 | The embed URL starts with the base, `/d-solo/`, the dashboard uid and `?orgId=1&` |
| Models.GetDashboardUrl | dashboard/models.py:328-331 | The dashboard URL is the base followed by exactly `/d/` and the uid |
| Models.EmbedQueryOrder | dashboard/models.py:317-326 | The embed query is the six parameters joined by `&` in their fixed order |
| Models.EmbedAndDashboardShareBase | dashboard/models.py:310-331 | Both Grafana URLs start with the same trimmed base |
| ApiDetector.ScanFrom | dashboard/utils/api_detector.py:68-120 | A found endpoint is one of the listed paths |
| ApiDetector.ScanNotFound | dashboard/utils/api_detector.py:68-120 | The scan finds nothing exactly when every endpoint from the start position on answers without qualifying |
| ApiDetector.ScanCrashed | dashboard/utils/api_detector.py:109-120 | The scan fails exactly when some endpoint raises a non-request exception and every endpoint before it was passed |
| ApiDetector.ScanFound | dashboard/utils/api_detector.py:91-107 | A found endpoint is one that qualified without raising, every endpoint before it having been passed |
| ApiDetector.ScanFindsFirstQualifying | dashboard/utils/api_detector.py:91-107 | Conversely, an endpoint that qualifies without raising, with every endpoint before it passed, is the one found |
| ApiDetector.ProbeApiEndpoints | dashboard/utils/api_detector.py:68-120 | The loop returns the scan's result, and a found endpoint is one of the 19 listed paths |
| ApiDetector.RedirectsNeverQualify | dashboard/utils/api_detector.py:91-107 | A 3xx reply never marks an API, because redirects are not followed |
| ApiDetector.RequestErrorsDoNotAbort | dashboard/utils/api_detector.py:109-120 | When every probe fails with a request error, the answer is that there is no API, not an error |
| ApiDetector.DetectApiFromLabels | dashboard/utils/api_detector.py:39-65 | No labels give no type. Enabled `homelab.api.*` labels give their type; otherwise the compose service name is used, lower-cased |
| ApiDetector.ApiTypeFromName | dashboard/utils/api_detector.py:146-154 | The type is the lower-cased name with every space removed when that is longer than two characters, and `custom` otherwise |
| Text.RemoveChar | dashboard/utils/api_detector.py:149 | `replace(c, '')` leaves no `c` and keeps every other character, with its count |
| Text.RemoveCharAppend | dashboard/utils/api_detector.py:149 | Removing a character from a concatenation removes it from each part |
| ApiDetector.DetectionOf | dashboard/utils/api_detector.py:123-164 | A crashed probe is a failure. A found endpoint gives an API with the label type or the name type; no endpoint gives no API and keeps the label type |
| ApiDetector.DetectApi | dashboard/utils/api_detector.py:123-164 | Detection equals `DetectionOf` of the labels and the scan; a detected API has a non-empty type and one of the listed endpoints |
| ApiDetector.LabelsDoNotSkipProbe | dashboard/utils/api_detector.py:141-164 | Labels naming a type do not make an API when no endpoint qualifies |
| Traefik.IsTraefikConfigured | dashboard/utils/traefik_service.py:15-24 | Traefik is configured exactly when the URL is set, non-empty and not the placeholder |
| Traefik.QuoteFreeRun | dashboard/utils/traefik_service.py:150 | The host capture stops at the first quote character |
| Traefik.MatchAt | dashboard/utils/traefik_service.py:150 | A match captures a non-empty run without quotes |
| Traefik.MatchAtSound | dashboard/utils/traefik_service.py:150 | A match at a position is the call name, `(`, a quote, the captured run, a quote and `)` |
| Traefik.MatchAtComplete | dashboard/utils/traefik_service.py:150 | Conversely, `Host(`, a quote, a non-empty run without quotes, a quote and `)` at a position is a match capturing that run |
| Traefik.FirstMatch | dashboard/utils/traefik_service.py:150-151 | The search returns the first position where the pattern matches, with no match before it |
| Traefik.FindFirst | dashboard/utils/traefik_service.py:150-155 | The first element of `re.findall` exists exactly when some position matches, and it is the first position's capture |
| Traefik.NoMatchWithoutInitial | dashboard/utils/traefik_service.py:158-164 | A text without the call's first letter has no match, so a host without `P` adds no path prefix |
| Traefik.ExtractUrlFromRule | dashboard/utils/traefik_service.py:135-167 | An empty rule gives none. A URL comes out exactly when a `Host(...)` matches: `https://` when TLS is on and `http://` otherwise, the first host, then the first `PathPrefix(...)` if any |
| Traefik.SingleHostRule | dashboard/utils/traefik_service.py:135-167 | ``Host(`h`)`` gives the scheme followed by `h` |
| Traefik.MixedQuotesMatch | dashboard/utils/traefik_service.py:150 | The pattern accepts an opening double quote closed by a backquote |
| Traefik.CleanServiceName | dashboard/utils/traefik_service.py:169-180 | A cleaned name has no `@`, `-` or `_`; its words are those of the name before `@` with `-` and `_` read as spaces, each capitalised, separated by single spaces |
| Traefik.CleanedNameProperties | dashboard/utils/traefik_service.py:169-180 | Removing the provider, replacing separators, splitting and capitalising gives such a name |
| Text.WordsOfJoin | dashboard/utils/traefik_service.py:178 | Splitting words that were joined by single spaces gives those words back |
| Traefik.TagList | dashboard/utils/traefik_service.py:182-196 | The tags are the provider if it is non-empty, then `docker` if the router name mentions docker, and no tag is empty |
| Traefik.ExtractTags | dashboard/utils/traefik_service.py:182-196 | The tags are `provider,docker`, the provider, `docker` or `""`, according to whether the provider is non-empty and the router name mentions docker |
| Traefik.RouterToService | dashboard/utils/traefik_service.py:100-130 | A router gives a service exactly when neither name is `@internal` and its rule has a host. The status is up when enabled and unknown otherwise; name, URL and tags come from the helpers |
| Traefik.Discover | dashboard/utils/traefik_service.py:92-133 | Discovery yields at most one service per router |
| Traefik.DiscoverSound | dashboard/utils/traefik_service.py:92-133 | Every discovered service comes from some router |
| Traefik.DiscoverComplete | dashboard/utils/traefik_service.py:92-133 | Every usable router's service is discovered |
| Traefik.DiscoverConcat | dashboard/utils/traefik_service.py:92-133 | Discovery works router by router: the routers of `a + b` give `Discover(a) + Discover(b)` |
| Traefik.DiscoverServices | dashboard/utils/traefik_service.py:92-133 | The loop returns `Discover` of the routers |
| Traefik.ShouldDetect | dashboard/utils/traefik_service.py:256-280 | A stale detection always probes; otherwise an active throttle skips the probe; otherwise a probe runs exactly when forced, for a new row, or for a row not yet detected |
| Traefik.DecideApi | dashboard/utils/traefik_service.py:282-330 | Manual credentials count as detected, with the stored endpoint and the stored type, or when there is none the lower-cased name without spaces. Without credentials, a probe that runs detects exactly when `DetectApiSpec` finds an API; a detection yields a listed endpoint, resets the counter and clears the next check. A failed probe adds one attempt and throttles from the fifth; no probe keeps both |
| Traefik.SyncedRow | dashboard/utils/traefik_service.py:332-370 | The sync writes name, URL, status, tags, type and provider; a new row is a non-manual Traefik row. A detection sets type and endpoint (a non-empty one wins), stamps the time, resets the counter and fills an empty API URL; otherwise the API fields are kept and the counter comes from the decision. `status_changed_at` moves only on a change, and every other column of the existing row is kept |
| Traefik.RouterMatches | dashboard/utils/traefik_service.py:242-244 | The rows looked up are exactly those with the router's name |
| Traefik.StepAt | dashboard/utils/traefik_service.py:239-378 | When another row holds the name, nothing changes. Otherwise the service is counted, and the built row is written over the matched row or inserted under the next id, which then advances |
| Traefik.NewRouterInserted | dashboard/utils/traefik_service.py:367-378 | A router no row is keyed by, with a free name, is inserted under the next id as the row built from the defaults, and counted |
| Traefik.MatchedRouterUpdated | dashboard/utils/traefik_service.py:367-378 | The one row keyed by the router is overwritten in place with the row built over it, the id counter is kept and the service counted |
| Traefik.SyncStepKeepsTable | dashboard/utils/traefik_service.py:239-378 | One service keeps ids and unique names, deletes nothing and counts at most once |
| Traefik.StepAtKeepsTable | dashboard/utils/traefik_service.py:367-370 | Writing at the looked-up row keeps the table invariant and deletes nothing |
| Traefik.SyncAllKeepsTable | dashboard/utils/traefik_service.py:239-378 | The whole loop keeps the table invariant and deletes no row |
| Traefik.ManualRowIsOverwritten | dashboard/utils/traefik_service.py:242-244 | A manual row holding the router's name is taken over: name and URL come from Traefik, and the manual flag stays |
| Traefik.ThrottleSkipsProbe | dashboard/utils/traefik_service.py:259-262 | While throttled and not stale, the decision ignores the network and keeps the counter and next check |
| Traefik.StaleDetectionOverridesThrottle | dashboard/utils/traefik_service.py:276-279 | A detection at least eight days old is redone even while throttled |
| Traefik.BackoffReleases | dashboard/utils/traefik_service.py:256-262 | Once the next-check time is reached, an undetected row is probed again |
| Traefik.FailedProbeCounts | dashboard/utils/traefik_service.py:310-330 | A failed or raising probe adds one attempt and, from the fifth, sets the next check five minutes ahead |
| Traefik.DetectedProbeResets | dashboard/utils/traefik_service.py:301-356 | A successful probe marks the API, resets the counter, stamps the time and fills an empty API URL |
| Traefik.ManualCredentialsSkipProbe | dashboard/utils/traefik_service.py:287-291 | Stored credentials mark the API as present, whatever the network says; the stored row keeps its endpoint and its type, or gains the lower-cased name without spaces as its type when it had none |
| Traefik.SkippedDetectionClearsFlag | dashboard/utils/traefik_service.py:282-345 | A detected API is written back as not detected by an unforced sync that skips detection |
| Traefik.DecideApiStep | dashboard/utils/traefik_service.py:256-330 | The imperative decision equals `DecideApi` |
| Traefik.SyncOne | dashboard/utils/traefik_service.py:239-378 | One loop body writes the table `SyncStep` describes, keeps it valid, and reports whether it counted |
| Traefik.SyncTraefikServices | dashboard/utils/traefik_service.py:208-380 | Unavailable Traefik changes nothing and returns 0. Otherwise the table and count are `SyncAll` over the discovered services, the table stays valid, and the count is at most the router count |
| Traefik.SyncStepShift | dashboard/utils/traefik_service.py:371 | A step's effect does not depend on the count so far, and adds at most one |
| Traefik.SyncStepTarget | dashboard/utils/traefik_service.py:242-244 | With the single matching row known, a step writes exactly that row |
| Views.Insert | dashboard/views.py:710-720 | A created row gets the next id, and every other row is unchanged |
| Views.Replace | dashboard/views.py:800 | A saved row replaces its own id, leaving keys, next id and other rows unchanged |
| Views.CreateForm | dashboard/views.py:682-719 | Each field is the body's value when the key is present; an absent type is `other`, an absent provider `local`, any other absent field empty |
| Views.CreateNeedsNameAndUrl | dashboard/views.py:682-697 | A body without a name is refused for its name; one with a non-blank name and no URL is refused for its URL |
| Views.CreateDefaults | dashboard/views.py:715-716 | A service created from a body without type or provider is an `other`, `local` one |
| Views.CreateOutcome | dashboard/views.py:676-748 | A blank name gives 400, then a blank URL, then a taken name, and otherwise the creation succeeds. The new manual row has the next id, the stripped name, description, icon and tags, the given type and provider, and the normalised URL, checked: the URL changes only by the plain-HTTP fallback, and the status and response time are the probe's. The row is exactly the health check of the row the form builds, so it starts with no credentials, no API type, endpoint or detection time, no attempts and no Traefik names. Every other row is unchanged |
| Views.CreateKeepsTable | dashboard/views.py:702-720 | A creation keeps ids and unique names |
| Views.CreateService | dashboard/views.py:676-748 | The method's outcome and new table are `CreateOutcome`'s, and the table stays valid |
| Views.PatchOf | dashboard/views.py:767-798 | Each patch field is present exactly when its key is in the body, with the body's value |
| Views.UpdatedRow | dashboard/views.py:767-798 | Name and URL change only when given non-blank, and the URL is normalised. Each of description, icon and tags is stripped when present, type and provider are copied when present, each absent key keeps its value, and no other field changes |
| Views.UpdateOutcome | dashboard/views.py:752-828 | A missing id gives 500 (the 404 is caught), a Traefik row gives 403, and a name taken by another row gives 400; otherwise the update succeeds. Success rewrites only that row, with `CheckedRow` of the patched row |
| Views.UpdateKeepsTable | dashboard/views.py:767-776 | An update keeps ids and unique names |
| Views.UpdateService | dashboard/views.py:752-828 | The method's outcome and new table are `UpdateOutcome`'s, and the table stays valid |
| Views.DeleteOutcome | dashboard/views.py:832-859 | A missing id gives 500, a Traefik row gives 403, and a manual row is removed with nothing else touched |
| Views.DeleteKeepsTable | dashboard/views.py:838-845 | A deletion keeps the invariant and never removes a Traefik row |
| Views.DeleteService | dashboard/views.py:832-859 | The method's new table is `DeleteOutcome`'s, and it returns the deleted name |
| Views.CredentialsOf | dashboard/views.py:184-202 | Each credentials field is present exactly when its key is in the body, with the body's value |
| Views.CredentialsRow | dashboard/views.py:184-202 | The API URL changes only when given non-blank, and it is normalised. The type, username, password and key are each copied when present and kept when absent, and nothing else changes |
| Views.UpdateServiceCredentials | dashboard/views.py:176-215 | A missing id gives 404; otherwise only that row's credentials change, and the table stays valid |
| Views.DetectOutcome | dashboard/views.py:219-293 | A configured API with credentials is returned without a probe. Otherwise the answer follows `DetectApiSpec` on the name and URL: it fails exactly when detection raises, reports an API exactly when one is detected, with that type and endpoint stored with the time and an empty API URL filled from the service URL, no other field changed, and otherwise clears the flag. It never answers 'already configured' for a row that is not |
| Views.DetectServiceApi | dashboard/views.py:219-293 | A missing id gives 404; otherwise the row becomes `DetectOutcome`'s row |
| Views.DetectionSettles | dashboard/views.py:228-264 | With credentials set, a forced detection that finds an API makes the next call answer "already configured" |
| Views.ConfiguredIsStable | dashboard/views.py:228-239 | An already configured row is answered without the network and left unchanged |
| Views.RefreshInfo | dashboard/views.py:119-123 | There is no message exactly when Traefik is available; configured but silent and not configured each get their message |
| Views.HealthChecked | dashboard/views.py:100-108 | Every row whose check did not raise becomes `CheckedRow` of itself; the others stay as they were; no row is added, removed or renamed |
| Views.PartialStep | dashboard/views.py:103-106 | Checking one more row moves the partial table on by that row, and adds one to the count unless its check raised |
| Views.PartialEnds | dashboard/views.py:100-108 | Before the loop the partial table is the old one; after it, it is `HealthChecked` |
| Views.CheckOne | dashboard/views.py:104-108 | One health check rewrites only its own row |
| Views.CheckAll | dashboard/views.py:100-108 | The loop leaves `HealthChecked` of the old rows and counts the rows whose check did not raise |
| Views.RefreshServices | dashboard/views.py:81-131 | The flags are as computed. Nothing is synced unless Traefik is available and its overview answers; then the count is `SyncAll`'s. The table is the sync's result after health checks, and the health count is the rows whose check did not raise |
| ApiClient.BaseUrl | dashboard/utils/generic_api_client.py:33-41 | An empty or missing base URL raises. Otherwise the URL is the normalised one: it starts with `h` and has no trailing `/`, a given scheme is kept, and a bare host gets `https://` |
| ApiClient.NewClient | dashboard/utils/generic_api_client.py:18-55 | Construction fails exactly for an empty base URL; otherwise a fresh client with the normalised URL, no token, no method, no headers and no cookies |
| ApiClient.AuthEndpoints | dashboard/utils/generic_api_client.py:57-102 | A configured endpoint is tried alone; otherwise the eight common endpoints are tried, in order |
| ApiClient.GenericApiClient.TryFindAuthEndpoint | dashboard/utils/generic_api_client.py:57-102 | The method returns `AuthEndpoints`; the documentation lookup never runs |
| ApiClient.MessageHints | dashboard/utils/generic_api_client.py:125-132 | A form hint wins over JSON, JSON over a bearer token, a token over an API key; at most one hint, and none exactly when the message mentions none of them |
| ApiClient.AuthHint | dashboard/utils/generic_api_client.py:104-139 | A bearer header wins, then a basic header. Any other header gives a hint that starts with the header text. Without a header, a JSON error body gives its message hint, if any, and anything else gives no hint; a hint is never empty |
| ApiClient.FirstToken | dashboard/utils/generic_api_client.py:215 | A token is some non-empty field among `jwt`, `token`, `access_token` and `auth_token`, and it is absent exactly when all are absent or empty |
| ApiClient.FirstTokenIsFirst | dashboard/utils/generic_api_client.py:215 | The token is the first field in that order with a non-empty value: every earlier one is absent or empty |
| ApiClient.LoginAttempt | dashboard/utils/generic_api_client.py:201-232 | Only a 200 succeeds. An `ok` text body succeeds without a token; a JSON object's token is `FirstToken` of its fields, and without one the cookies decide; a non-JSON body succeeds through `ok` text or cookies |
| ApiClient.TryMethod | dashboard/utils/generic_api_client.py:179-273 | The verdict is `LoginAttempt`'s with the cookie jar after the reply. A token becomes the token and the `Authorization: Bearer` header; without one, token and headers stay. A failure changes only the cookie jar |
| ApiClient.GenericApiClient.TryAuthenticateWithMethod | dashboard/utils/generic_api_client.py:179-273 | The method's result and new state are `TryMethod`'s |
| ApiClient.SearchFrom | dashboard/utils/generic_api_client.py:160-177 | A success is a later endpoint, or a later format at the current one. A failed search changes only the cookie jar, and cookies are never lost |
| ApiClient.SearchFoundSucceeded | dashboard/utils/generic_api_client.py:166-174 | A found pair is one whose login POST succeeded, sent from the search's starting state up to its cookies |
| ApiClient.FirstSuccessWins | dashboard/utils/generic_api_client.py:166-174 | When every earlier pair is refused and a pair is accepted, the search stops at that pair: endpoints outside, formats inside |
| ApiClient.AuthenticateSpec | dashboard/utils/generic_api_client.py:141-177 | An API key succeeds at once and sets the token, the `X-API-Key` header and the method. Missing credentials fail with nothing changed. Otherwise it succeeds exactly when the search finds a pair, recording that pair's format as the method; a failed search changes only the cookie jar |
| ApiClient.GenericApiClient.Authenticate | dashboard/utils/generic_api_client.py:141-177 | The nested loops' result and new state are `AuthenticateSpec`'s |
| ApiClient.JsonWinsAtFirstEndpoint | dashboard/utils/generic_api_client.py:159-175 | JSON is tried first: when it works at the first endpoint, it is the method recorded |
| ApiClient.NoOkNoLogin | dashboard/utils/generic_api_client.py:160-177 | A login server that never answers 200 makes the whole search fail |
| ApiClient.WithSlash | dashboard/utils/generic_api_client.py:295-296 | The path gets a leading `/` added only when it lacks one |
| ApiClient.Finish | dashboard/utils/generic_api_client.py:331-360 | A 4xx or 5xx raises with the first 300 characters of the text; otherwise an empty body gives `True`, a non-JSON body its text and JSON the decoded body. A timeout, a connection error and any other exception each raise their own error |
| ApiClient.CallWithRetry | dashboard/utils/generic_api_client.py:310-360 | A reply other than 401 is finished directly, keeping the cookies it set. A 401 logs in again: a failure gives None, a success repeats the call once with the new headers and cookies and finishes that reply |
| ApiClient.RequestSpec | dashboard/utils/generic_api_client.py:275-360 | Without a token or cookies it logs in first: a failure gives None, a success goes on to the call with the new state; otherwise it goes straight to the call |
| ApiClient.GenericApiClient.Request | dashboard/utils/generic_api_client.py:275-360 | The method's outcome and new state are `RequestSpec`'s |
| ApiClient.NoCredentialsNoCall | dashboard/utils/generic_api_client.py:288-292 | Without any credentials, a request returns None and the API is never consulted |
| ApiClient.RetryAtMostOnce | dashboard/utils/generic_api_client.py:321-331 | Against an API that always answers 401, a request ends in None or in the 401 HTTP error of the single retry |
| ApiClient.ApiKeyRetriesWithSameKey | dashboard/utils/generic_api_client.py:143-149 | Logging in again with an API key sends the same headers |

## Left out

- **Network, database and time.**
  - Every HTTP exchange is an oracle parameter. Reachability of the proxy
    (`check_traefik_availability`, `test_connection`) and the fetched
    routers are inputs to the sync.
  - A reply is a function of the request alone, so two identical requests
    get the same reply.
  - The ORM is the `rows`/`nextId` table. `save()` succeeds, except in the
    refresh loop, where the set `failing` names the rows whose check raised.
  - `timezone.now()` is one integer per operation, and `response_time` is
    an integer millisecond count given by the network oracle.
- **Left out entirely:** the thread pool and the periodic scheduler,
  logging, `uptime_percentage`, the `HealthCheck` history rows, `admin.py`,
  the management commands, and every view not named above.
- Text.Lower: `lower` and `capitalize` map only the ASCII letters;
  Unicode case mapping is not modelled. `strip` uses the full
  `str.isspace()` set.
- **Views input:** views take a decoded form or patch record. `CreateForm`,
  `PatchOf` and `CredentialsOf` read it from the request's string map. The
  model does not cover:
  - malformed JSON (the 400 of `create_service`);
  - values that are not strings, whose `.strip()` raises and gives a 500;
  - the JSON response bodies; only the outcome and the status code are
    kept.
- **Encryption:** Fernet and the key are the `Cipher` parameter. The table
  holds credentials as plaintext, and the encrypted-field round trip is
  modelled separately in `Encryption`.
- ApiDetector.DetectApi: the label path is modelled, but every caller
  in the core passes `labels=None`.
- Traefik.DiscoverServices:
  - The `except` around a single router cannot fire once routers are plain
    records, so it is not modelled.
  - A Traefik API error reaches discovery as an empty router list.
- Traefik.SyncTraefikServices: a row whose save would break the
  unique name, or whose router name matches several rows, is skipped, as
  the per-service `except` does. The exception text is not kept.
- ApiClient.AuthHint: the source only logs the hint, so no request
  depends on it.
- ApiClient.GenericApiClient.TryFindAuthEndpoint: the OpenAPI lookup
  for fewer than three candidates cannot run (there are always one or
  eight), so it is not modelled.
- ApiClient.GenericApiClient.Request:
  - The `SSLError` handler is dead code, because `SSLError` is a
    `ConnectionError` and the earlier handler catches it.
  - `**kwargs` (request bodies and parameters) are not modelled.
  - The session's default headers stand for the `headers` map.
  - JSON bodies hold only string values, and the exception messages are
    not modelled.
- ApiClient.LoginAttempt: JSON token values are strings; a non-string
  token would be used as it is.
- Views.HttpStatus: the view-level `except Exception` branches that
  turn an unexpected error into a 500 are modelled only for detection.
