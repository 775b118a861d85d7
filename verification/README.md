# qlist points ledger, modelled in Dafny

qlist is a download gateway with a points system. Users hold a balance of
points. Downloading a file costs the price configured for its path, or a
default price. Administrators set prices and grant (or take back) points.
Every balance change is written to an append-only point log.

This project models the ledger core of `api/point_api.go` and the pieces
around it:

- local accounts (`api/user.go`);
- third-party login identities (`api/oauth.go`);
- the file-info query (`api/points.go`);
- the recent-files listing and its counters (`api/file_api.go`);
- the administrator guard (`middleware/auth_middleware.go`);
- host-to-site resolution (`middleware/site_middleware.go`);
- driver selection and secret generation (`config/config.go`);
- the record types of `models/`.

The model is organised as follows:

- **Tables.** One `Store.Database` object holds all tables, and the handlers
  update it in place. Users, log entries, sites and files are sequences whose
  ids are their position plus one (gorm's auto-increment). Price entries are a
  map keyed by their unique normalised path.
- **Handler results.** A handler's HTTP answer is a `Common.Result`. A failure
  carries the status code and the message text the handler writes.
- **The central invariant.** `Database.Valid()` holds after every modelled
  operation. It includes `Store.Reconciled`: every balance equals the sum of
  that user's log entries. It holds because every balance change appends one
  entry carrying exactly that change, and new users start at 0.
- **Inputs.**
  - The logged-in user is an optional user id; the JWT cookie is not modelled.
  - The storage backend's `GetDownloadUrl` is a resolver function.
  - A provider's OAuth answer (email, login, openid) is plain input.
  - Random bytes are a `Config.RandomSource` value.
  - The `ENV` variable and the request host are plain strings.

The model follows the code on these points:

- A grant may drive a balance below 0. There is no lower bound on the signed
  amount at `api/point_api.go:442`. Only the spend keeps balances at or above
  0, and `PointApi.DownloadFile` proves that.
- Price entries and users carry no site predicate. `point_configs` has no site
  column. Usernames are unique across the whole table (`models/points.go:12`),
  not per site and provider. So registering an email that an OAuth account
  already uses as its username fails the insert.
- The log query's limit has no upper bound. Any positive 64-bit value is taken
  as given.
- A failed download-URL resolution keeps the debit and the log entry. Nothing
  is refunded.

## Model

| member | source | states |
|---|---|---|
| Config.GetDialector | config/config.go:14-25 | exactly "mysql", "postgres" and "sqlite" succeed, each with its own driver over the configured connection string; any other type fails with the type in the message |
| Config.FillFallback | config/config.go:90-92 | the fallback loop sets character i of the buffer to charset[i mod 62] |
| Config.MapToCharset | config/config.go:103-105 | the mapping loop replaces every byte in place by charset[byte mod 62] |
| Config.GenerateRandomSecret | config/config.go:85-107 | the secret has exactly `length` characters, all from the 62-character charset; with random bytes character i is charset[b[i] mod 62]; when the source cannot be opened or read it is charset[i mod 62] |
| Text.TrimSpace | api/point_api.go:110-111 | the result is the input with only white space removed before and after it, and it neither starts nor ends with white space |
| Text.ContainsIff | middleware/auth_middleware.go:61 | `Contains(s, t)` holds exactly when t occurs at some position of s |
| Text.LastIndexOf | api/points.go:30 | the position of the last occurrence of the character, or -1, with no occurrence after it |
| Text.ToLower | api/oauth.go:94 | same length, every ASCII capital lower-cased, every other character kept, no capital left |
| Text.Atoi | api/point_api.go:529 | parsing succeeds exactly when the text is an optional sign followed by one or more ASCII digits whose value lies in the 64-bit range, and the result is that signed decimal value |
| Text.AtoiItoa | api/file_api.go:37-42 | every 64-bit integer written in decimal parses back to itself |
| Models.NewUser | models/points.go:13 | a newly inserted user has balance 0 and is not an administrator |
| Store.NewestFirst | api/point_api.go:535 | the listing holds exactly the rows that pass the filter |
| Store.NewestFirstDescending | api/point_api.go:535 | rows written with increasing ids are listed with strictly decreasing ids |
| Store.Take | api/point_api.go:535 | `Limit(n)` returns the first min(n, count) rows |
| Store.TakeKeepsNewest | api/point_api.go:535 | limiting a newest-first listing keeps rows newer than every row it drops |
| Store.Window | api/file_api.go:49 | `Limit(n).Offset(o)` returns at most n rows, starting at row o, or none past the end |
| Store.FindUser | api/point_api.go:208 | `First` returns the lowest-id user matching the key, or none exists |
| Store.FindUserById | api/point_api.go:208 | in a well-formed table the user with id k is at position k - 1, and no user has an id outside 1..count |
| Store.LogSumAppend | models/points.go:28-29 | appending a log entry adds its signed points to its own user's sum and changes no other user's sum |
| Store.LogSumUnreferenced | models/points.go:13-14 | a user that no log entry refers to has sum 0 |
| Store.ReconciledAfterEntry | api/point_api.go:223-237 | changing one balance by the points of a log entry appended for that user keeps every balance equal to its log sum |
| Store.ReconciledAfterInsert | models/points.go:13 | a new user with the next id and balance 0 keeps every balance equal to its log sum |
| Store.LedgerAfterEntry | api/point_api.go:442-454 | a balance change together with its log entry keeps ids sequential, references valid and balances reconciled |
| Store.LedgerAfterInsert | models/points.go:12-13 | inserting an untaken username with the next id and balance 0 keeps usernames unique and balances reconciled |
| Store.Database.constructor | models/points.go:10-34 | the empty database satisfies every table invariant |
| PointApi.NormalizePathShape | api/point_api.go:110-116 | the normalised path is the trimmed input minus one leading '/': one character shorter exactly when the trimmed input starts with '/', and a suffix of it |
| PointApi.NormalizeKeepsNormalPath | api/point_api.go:185-190 | a path with no surrounding white space and no leading '/' is left unchanged |
| PointApi.UpsertedConfig | api/point_api.go:120-138 | the entry left at the path has the new points and description; it keeps the existing id, or takes the next id when there was none |
| PointApi.Configured | api/point_api.go:118-146 | the entry at the (normalised) path holds the new points and description, keeping its id or taking the next id; no other entry changes; paths stay unique keys with ids below the next id |
| PointApi.ConfigureTwiceLastWins | api/point_api.go:118-146 | configuring a path twice leaves one entry with the second call's values and the first call's identity |
| PointApi.ConfigureIdempotent | api/point_api.go:118-146 | configuring a path again with the same values changes nothing |
| PointApi.ConfigurePoints | api/point_api.go:98-147 | the price table becomes the upsert, with the update or the save message; users, log, sites and files are unchanged and every invariant is kept |
| PointApi.SpendPrice | api/point_api.go:197-205 | the price is the entry's points when the path has one, otherwise the default points |
| PointApi.ConfiguredPriceIsCharged | api/point_api.go:120-205 | after configuring a path, a spend on any spelling with the same normalised path costs the configured points |
| PointApi.PlanSpend | api/point_api.go:192-217 | with no login the request is refused with 401; an unknown user id gives 500; a balance below the price gives 403; an approved spend charges that user the price of the normalised path, which the balance covers |
| PointApi.DownloadFile | api/point_api.go:173-264 | a refused spend changes nothing; an approved one lowers exactly that balance by the price, leaving it at or above 0, and appends one entry with points -price, type "file_access" and the normalised path; a resolver failure returns 500 and keeps the debit; all invariants hold |
| PointApi.AdminGrantPoints | api/point_api.go:412-473 | the user is found by username alone or created with balance 0; the signed amount is added with no lower bound; one entry with exactly that amount, the description and an empty type is appended; all invariants hold |
| PointApi.GetUserPoints | api/point_api.go:482-508 | an empty username gives 400 and an unknown local account 404; otherwise the balance of the local account with that username |
| PointApi.ReportedBalanceIsLogSum | api/point_api.go:482-508 | in a reconciled ledger the reported balance equals the sum of that user's log entries |
| PointApi.LogLimit | api/point_api.go:524-532 | the limit is the parsed value when it is an integer above 0, otherwise 50 |
| PointApi.LogLimitReadsDecimal | api/point_api.go:528-531 | any positive 64-bit limit written in decimal is taken as given |
| PointApi.LogPageNewestFirst | api/point_api.go:535 | in a well-formed log the limited listing has strictly decreasing ids, and every selected entry it drops is older than every entry it lists |
| PointApi.GetPointsLog | api/point_api.go:518-562 | an unknown username gives 404; otherwise at most `limit` entries, all from the log and all of the selected user (or anyone), newest first; a selected entry is left out only when the page is full and is older than every listed entry |
| Points.FileNameOf | api/points.go:29-32 | the file name is a suffix of the path holding no '/', preceded by '/' whenever it is not the whole path |
| Points.FileNameOfJoined | api/points.go:29-32 | a name without '/' after a directory and a '/' is read back unchanged |
| Points.GetFileInfo | api/points.go:10-42 | an empty parameter, checked before trimming, gives 400; a normalised path with no entry gives 404 with no default price; otherwise the entry's points, path and description with the file name |
| Points.ConfiguredInfo | api/points.go:20-41 | after configuring a path, the file-info query for the same text reports the configured points and description under the normalised path |
| UserApi.RegisterOutcome | api/user.go:130-146 | empty email or password gives 400; an existing (email, "local") account gives 409; success exactly when the username is untaken, creating username = email, provider "local", the password and balance 0; otherwise the insert fails with 500 |
| UserApi.LocalRegister | api/user.go:115-163 | the new account is appended on success and nothing changes otherwise; all invariants hold |
| UserApi.LocalLogin | api/user.go:166-213 | success exactly when the (email, "local") account exists and its password matches; an unknown email and a wrong password give the same 401 |
| UserApi.RegisterThenLogin | api/user.go:141-196 | an account just registered logs in with the same email and password |
| UserApi.RegisterTwiceConflicts | api/user.go:135-141 | registering the same email a second time is refused with 409 |
| UserApi.ProviderOptions | api/user.go:219-227 | Google, GitHub and WeChat each appear exactly when configured, in that order, with at most three entries |
| UserApi.AvailableLoginOptions | api/user.go:216-232 | Google, GitHub and WeChat appear in that order, each exactly when its id and redirect URI are set, followed always by email login and registration; 2 to 5 entries |
| OAuth.CallbackUrl | api/oauth.go:16-36 | an unconfigured provider gives 400; with no `redirect_url` the callback URL is the configured redirect URI unchanged; otherwise the augmented URL, or 500 when augmenting fails |
| OAuth.OfferedIffLoginConfigured | api/oauth.go:18-21 | a provider is offered as a login option exactly when its login redirect is not refused for lack of configuration |
| OAuth.GoogleIdentity | api/oauth.go:47-96 | a missing code gives 400 and an empty email 500; otherwise the username is the email lower-cased, with provider "google" |
| OAuth.GitHubIdentity | api/oauth.go:154-207 | a missing code gives 400; empty login and email give 500; otherwise the username is the lower-cased email, or the lower-cased login when there is no email, with provider "github" |
| OAuth.WechatIdentity | api/oauth.go:265-290 | a missing code gives 400 and an empty openid 500; otherwise the username is the openid unchanged, with provider "wechat" |
| OAuth.GoogleIgnoresCase | api/oauth.go:94 | emails that differ only in ASCII case log into the same Google account |
| OAuth.FirstOrCreate | api/oauth.go:96 | an existing (username, provider) account is returned with the table unchanged; otherwise one account with balance 0 is appended, unless the username is taken by another provider, which fails with 500 |
| OAuth.FirstOrCreateIdempotent | api/oauth.go:207 | repeating a login with the same identity returns the same account and adds none |
| OAuth.FirstOrCreateKeepsLedger | api/oauth.go:290 | the appended account keeps ids sequential, usernames unique and balances reconciled |
| OAuth.RedirectTarget | api/oauth.go:115-119 | the browser goes to `redirect_after_login` when it is non-empty, otherwise to "/" |
| OAuth.CompleteLogin | api/oauth.go:226-230 | a refused identity or a failed write changes nothing; otherwise the table is the find-or-create result and the answer is that account's id and the redirect target |
| FileApi.ClampLimit | api/file_api.go:34-40 | the limit is always in 1..100: a parsed value in range is kept, anything else (absent, unparsable, at most 0, above 100) becomes 10 |
| FileApi.ClampOffset | api/file_api.go:35-45 | the offset is a parsed non-negative value, otherwise 0 |
| FileApi.PagingReadsDecimal | api/file_api.go:37-45 | a limit in 1..100 and any non-negative 64-bit offset written in decimal are taken as given |
| FileApi.AttachedConfig | api/file_api.go:55-65 | a file gets the price entry of its path when there is one, otherwise the zero entry with 0 points |
| FileApi.AttachedConfigAsWritten | api/file_api.go:57-61 | the lookup as written always attaches an entry with 0 points |
| FileApi.AttachAsWrittenLosesPrice | api/file_api.go:57 | for a path priced at 5, the lookup as written attaches 0 points where the intended lookup attaches 5 |
| FileApi.RecentFiles | api/file_api.go:49 | of the current site's files listed newest upload first, exactly the rows at positions offset to offset + limit - 1 that exist: min(limit, count - offset) rows, or none past the end, all files of that site, newest first |
| FileApi.WindowOfNewestFirst | api/file_api.go:49 | a window of a newest-first listing of rows written with increasing ids has strictly decreasing ids |
| FileApi.WindowKeepsOrder | api/file_api.go:49 | an offset window of a newest-first listing is still newest first |
| FileApi.AttachConfigs | api/file_api.go:55-65 | the loop sets every listed row's price entry in place and changes nothing else in the row; the entry is the corrected per-path lookup, not the lookup as written (see Findings) |
| FileApi.GetRecentFiles | api/file_api.go:26-68 | no site in context gives 500; with a site the answer is always the site's page for the clamped limit and offset, each row with the price entry of the corrected per-path lookup attached (see Findings) |
| FileApi.RecordFileUpload | api/file_api.go:72-83 | exactly one file is appended, with the given site, path, name, size and content type and no downloads |
| FileApi.BumpDownloads | api/file_api.go:87-89 | every row of (site, path) gains exactly one download and every other row is unchanged |
| FileApi.BumpDownloadsTotal | api/file_api.go:87-89 | the table's total downloads grows by the number of rows at that (site, path) |
| FileApi.UpdateFileDownloadCount | api/file_api.go:87-89 | the file table becomes the bumped table and nothing else changes |
| AuthMiddleware.BasicAuth | middleware/auth_middleware.go:13-32 | 503 whenever the administrator username or password is unset; otherwise passes exactly when the credentials are present and equal both settings, else 401 |
| AuthMiddleware.ApiKeyOf | middleware/auth_middleware.go:38-43 | the key is the header, or the `api_key` query parameter when the header is empty |
| AuthMiddleware.APIKeyAuth | middleware/auth_middleware.go:35-54 | passes exactly when the offered key is non-empty and equals the administrator password, else 401 |
| AuthMiddleware.RequireAuth | middleware/auth_middleware.go:57-70 | the API-key method decides when the header is set or the raw query contains "api_key=", and Basic decides otherwise; the request passes exactly when the chosen method accepts it |
| AuthMiddleware.EmptyPasswordLocksOut | middleware/auth_middleware.go:16-46 | with no administrator password no request passes, whichever method is chosen |
| AuthMiddleware.MentionOfApiKeyOverridesBasic | middleware/auth_middleware.go:61-63 | a raw query merely containing "api_key=" with no key offered is refused with 401, even with correct Basic credentials |
| SiteMiddleware.GetSiteByHost | middleware/site_middleware.go:20-29 | a database error is reported as such; a found site has the host as its domain; no site means no site has that domain |
| SiteMiddleware.GetSiteFromContext | middleware/site_middleware.go:65-70 | the stored site, or none when the context holds none |
| SiteMiddleware.ContextRoundTrip | middleware/site_middleware.go:58-70 | the site stored by the middleware is the one read back, and an empty context yields none |
| SiteMiddleware.Resolve | middleware/site_middleware.go:32-62 | a lookup error gives 500 with no change; a site found for the host is put in the context for the next handler with the table unchanged; in development mode a host with no site gets a new "Default Site" with the next id and the host as domain, which is appended and handed on; in production a missing site serves the not-found page |
| SiteMiddleware.ResolveKeepsSites | middleware/site_middleware.go:44-50 | a created site keeps site ids sequential and domains unique |
| SiteMiddleware.ProvisionedOnce | middleware/site_middleware.go:20-50 | a second request for a host provisioned in development mode finds the same site and creates none |
| SiteMiddleware.Handler | middleware/site_middleware.go:32-62 | the outcome and the site table are those of `Resolve`; nothing else changes and all invariants hold |

## Left out

- HTTP plumbing is not modelled. That covers method checks, JSON decoding and its "请求参数错误" answer, response bodies, cookies and `http.Redirect`. A handler's answer is a `Result`.
- JWT issue and parsing are not modelled. The logged-in user is an optional id.
- PointApi.PlanSpend: an invalid or expired token gets its own 401 message at `api/point_api.go:307-316`. Here it is folded into "not logged in". The login options that the 401 body carries are not part of the result.
- Storage faults are not modelled. That covers failed Save, Create and Commit and the queries' non-"not found" errors, including:
  - "扣除积分失败", "创建积分日志失败" and "操作失败" in the spend;
  - "更新积分失败" and "用户操作失败" in the grant;
  - "更新积分配置失败" and "保存积分配置失败" in the price upsert;
  - "查询用户失败", "获取积分日志失败" and "获取用户信息失败" in the queries;
  - "查询文件列表失败" and "创建默认站点失败";
  - "生成token失败" in the login handlers.

  Each is a rollback that changes nothing. Only the site lookup error is modelled, as a flag, and so is the unique-username violation.
- Concurrency and isolation are not modelled. The balance check at `api/point_api.go:214` comes before the transaction. Each spend and grant is one atomic step.
- Time is not modelled. `created_at` and `uploaded_at` order is taken to be id order. Ties between equal timestamps are not modelled.
- The OAuth token and user-info exchanges, `decodeFormOrJSON` and `toValues` are not modelled. The providers' answers are inputs.
- OAuth.CallbackUrl: URL parsing and setting `redirect_after_login` are the `augment` parameter. The authorization URL text, built with `url.QueryEscape`, is not modelled.
- `storage/alist.go` is not part of this model. `GetDownloadUrl` is the resolver parameter.
- The not-found page file that `http.ServeFile` sends is not modelled. It is the `SiteNotFoundPage` outcome.
- Text.ToLower: only ASCII letters are lower-cased. Go's Unicode case mapping is not modelled.
- Text.TrimSpace works on Unicode code points. Invalid UTF-8 bytes are not modelled.
- Integers are unbounded. Overflow of Go's `int` in balances, prices and download counts is not modelled. `strconv.Atoi`'s 64-bit range is modelled.
- Config.GenerateRandomSecret: the byte buffer is an array of characters whose codes are the byte values. A short read fills only the front of the zeroed buffer. The `os.Open` and `Read` calls are the `RandomSource` input.
- FileApi.GetRecentFiles: attaches the corrected per-path lookup `FileApi.AttachedConfig`. The code as written attaches `FileApi.AttachedConfigAsWritten`, 0 points for every file (see Findings).
- Config.GetDialector: the Go error carries no HTTP status. The model gives it 500 and opens no connection.
- The file listing's `GetSiteFromContext` (a gin context, `api/file_api.go:27`) is a different revision from the one in `middleware/site_middleware.go`. Its result is the optional site input.
- The other handlers of `api/point_api.go` are not modelled:
  - `GetPointsList`, `GetUsersList` and `GetUserInfo` are plain table reads.
  - `InitDB`, `respondWithError` and `respondWithJSON` are plumbing.
  - `GetFileInfo`, `RegisterLocal`, `LoginLocal`, `Login*`, the callbacks and `getAvailableLoginOptions` there are older revisions of the functions modelled from `api/points.go`, `api/user.go` and `api/oauth.go`.
- `GetUserInfo` in `api/user.go` is not modelled. It is a read of one row.
- `LoadConfig` and `SaveConfig` in `config/config.go` are not modelled. They are file I/O.
- `TableName` in the models files is not modelled. It only names the tables, which the model keeps as fields of `Store.Database`.
- The log type "admin_grant" is listed in the log type documentation at `models/points.go:30`. No modelled code writes it: the grant writes an empty type.

## Findings

| source | as written | input that shows it | evidently intended | confidence | as-written member | corrected member |
|---|---|---|---|---|---|---|
| api/file_api.go:57 | the price lookup filters `point_configs` on `site_id` and `path`, but that table has neither column (models/points.go:18-23; its path column is `file_url`), so the query fails and every listed file gets 0 points | a file at "docs/a.zip" with a price entry of 5 points for "docs/a.zip" | attach the entry of the file's path (5 points) | medium, not executed | FileApi.AttachedConfigAsWritten, FileApi.AttachAsWrittenLosesPrice | FileApi.AttachedConfig |
