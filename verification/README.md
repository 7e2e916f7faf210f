# elysia-boilerplate, modelled in Dafny

This project models the request-handling core of an Elysia (Bun) REST boilerplate. That core has four parts:

- the per-request middlewares: request id, security headers, rate limiting and logging;
- the global error handler and the error and response envelopes;
- configuration read from the environment;
- the `users` module: schemas, routes, controller, service, repository and table model.

Each source file is one Dafny module:

| Dafny file | module | source file |
|---|---|---|
| `errors.dfy` | `Errors` | `src/utils/errors.ts` |
| `pagination.dfy` | `Pagination` | `src/utils/pagination.ts` |
| `responses.dfy` | `Responses` | `src/utils/response.ts` |
| `config.dfy` | `Config` | `src/config/env.ts` |
| `request_id.dfy` | `RequestId` | `src/middlewares/requestId.ts` |
| `secure_headers.dfy` | `SecureHeaders` | `src/middlewares/secureHeaders.ts` |
| `rate_limit.dfy` | `RateLimit` | `src/middlewares/rateLimit.ts` |
| `logging.dfy` | `Logging` | `src/middlewares/logger.ts` |
| `error_handler.dfy` | `ErrorHandler` | the `onError` hook of `src/app.ts` |
| `user_model.dfy` | `UserModel` | `src/modules/users/users.model.ts` |
| `users_repository.dfy` | `Repository` | `src/modules/users/users.repository.ts` |
| `users_service.dfy` | `Service` | `src/modules/users/users.service.ts` |
| `user_schemas.dfy` | `Schemas` | `src/modules/users/users.schemas.ts` |
| `users_controller.dfy` | `Controller` | `src/modules/users/users.controller.ts` and `users.routes.ts` |

Four support modules sit under them:

- `Wrappers`: `Option` and `Result`.
- `Numbers`: `Math.max`, `Math.min`, and `Math.ceil` of a quotient.
- `Text`: the JavaScript string built-ins the core relies on (`trim`, `split`, `join`, `slice`, `parseInt(_, 10)` and `String(n)`) and the `||` fallback on strings.
- `Context`: the fields the middlewares write into the framework's `store` (one object for the whole application in the source) and the response's `set.headers`.

Objects whose state the source changes in place are classes:

- `RateLimit.RateLimiter` owns the in-memory `Map` of rate-limit windows.
- `Repository.UsersRepository` owns the rows of the `users` table.
- `Service.UsersService` holds its repository.
- `Context.RequestContext` holds the `store` fields and the response headers as one request sees them.

Every method on these classes is proved against a pure function. For example:

- `Step` specifies one rate-limit check.
- `Swept` specifies the periodic cleanup.
- `InsertOutcome` and `UpdateOutcome` specify what the database does with an insert or an update.

The lemmas prove what the system promises about those functions.

JavaScript semantics are written out where they matter:

- `x || d` treats `""`, `0` and `undefined` as absent (`Text.OrIfEmpty`, `Pagination.OrDefault`, `Config.EnvOr`).
- `??` treats only `undefined` as absent (`Option.GetOr`).
- `parseInt` returns `None` for `NaN`.

The following are parameters rather than computed values:

- `Date.now()`;
- `crypto.randomUUID()` and the UUID the database generates;
- the ISO timestamp strings;
- the `email` and `uuid` string formats, which are function-valued parameters.

## Model

| member | source | states |
|---|---|---|
| Errors.StatusOf | src/utils/errors.ts:22-69 | every error subclass has a status in 400..599, and the status is below 500 exactly for the client-error classes |
| Errors.StatusIdentifiesClass | src/utils/errors.ts:22-69 | no two error subclasses share a status code, so the status alone tells which class was thrown |
| Errors.NewAppError | src/utils/errors.ts:7-19 | an `AppError` keeps the message, code, status and details it was built with, and its name is the class name |
| Errors.NewError | src/utils/errors.ts:22-69 | each subclass fixes its status; an omitted code or message takes that subclass's default, and a supplied one is kept |
| Errors.FormatErrorResponse | src/utils/errors.ts:83-108 | the envelope always has `success: false` and the request id; an `AppError` exposes its code, message and details, while any other error becomes `INTERNAL_ERROR` with a generic message |
| Errors.ForeignErrorsIndistinguishable | src/utils/errors.ts:99-107 | two non-`AppError` errors give identical envelopes, so nothing about a foreign error leaks to the client |
| Numbers.CeilDiv | src/utils/pagination.ts:29 | `Math.ceil(a / b)` for `b >= 1` is the least `q` with `a <= q * b` |
| Pagination.ParsePaginationParams | src/utils/pagination.ts:15-23 | the page is at least 1 and the limit is in 1..100; an acceptable value is kept, an out-of-range one is clamped, and a missing or zero one falls back to the default |
| Pagination.ParseIdempotent | src/utils/pagination.ts:15-23 | parsing parameters that have already been parsed changes nothing |
| Pagination.TotalPages | src/utils/pagination.ts:29 | the page count is the least number of `limit`-row pages that hold `total` rows |
| Pagination.CalculatePaginationMeta | src/utils/pagination.ts:25-39 | the query fields are echoed; `totalPages` is the least page count that holds `total` (0 for an empty table); `hasNextPage` holds iff `page < totalPages`, and `hasPrevPage` iff `page > 1` |
| Pagination.CalculateOffset | src/utils/pagination.ts:41-43 | a valid page has a non-negative offset, and page 1 starts at row 0 |
| Pagination.OffsetStep | src/utils/pagination.ts:41-43 | consecutive pages start exactly `limit` rows apart |
| Pagination.PageInRangeIffNonEmpty | src/utils/pagination.ts:25-43 | a page within `1..totalPages` starts before the last row, and a later page starts after it |
| Responses.Success | src/utils/response.ts:22-32 | the success envelope carries the data and request id with `success: true` |
| Responses.StatusCodeIgnored | src/utils/response.ts:22-32 | the status-code argument has no effect on the envelope |
| Responses.Paginated | src/utils/response.ts:35-51 | the paginated envelope carries the rows, the pagination block and the request id unchanged |
| UserModel.DbThrown | src/modules/users/users.model.ts:7-21 | a constraint violation reaches the service as a foreign error, not an `AppError` |
| UserModel.InsertOutcome | src/modules/users/users.model.ts:7-21 | an insert succeeds iff both columns fit in 255 characters, the id is fresh and the email is unused; the row then has both timestamps equal to `now`, and a unique-index failure means the email was taken |
| UserModel.Patched | src/modules/users/users.model.ts:12-18 | an update overwrites exactly the supplied fields and `updatedAt`; the id and `createdAt` stay |
| UserModel.UpdateOutcome | src/modules/users/users.model.ts:7-21 | updating an absent id finds no row; updating a present id succeeds iff the patched row fits the columns and no other row holds its email, and then returns the patched row; a unique-index failure means another row holds the new email |
| UserModel.InsertKeepsConstraints | src/modules/users/users.model.ts:7-21 | after an insert the table is still keyed by id, every email is unique and every column fits |
| UserModel.UpdateKeepsConstraints | src/modules/users/users.model.ts:7-21 | after a successful update the table still satisfies every constraint |
| Repository.SortByCreatedDesc | src/modules/users/users.repository.ts:48 | the listing is sorted newest first and is a permutation of the rows |
| Repository.Window | src/modules/users/users.repository.ts:48-50 | `LIMIT`/`OFFSET` returns the run of at most `limit` rows that starts at `offset`, or nothing past the end |
| Repository.Without | src/modules/users/users.repository.ts:74-80 | removing an id keeps exactly the other ids and keeps them distinct |
| Repository.UsersRepository.constructor | src/modules/users/users.model.ts:6-22 | a new table is empty and satisfies every constraint |
| Repository.UsersRepository.Listing | src/modules/users/users.repository.ts:46-50 | `ORDER BY created_at DESC` lists every row exactly once, newest first |
| Repository.UsersRepository.Create | src/modules/users/users.repository.ts:17-20 | the insert returns what the database does with the row, the table changes only on success, and every constraint is kept |
| Repository.UsersRepository.FindById | src/modules/users/users.repository.ts:22-29 | it returns the row with that id, or nothing iff there is none |
| Repository.UsersRepository.FindByEmail | src/modules/users/users.repository.ts:31-38 | it returns the row with that email, which is unique, or nothing iff no row has it |
| Repository.UsersRepository.FindAll | src/modules/users/users.repository.ts:40-60 | the page is the window of the newest-first listing at `(page - 1) * limit`, holds only stored rows and at most `limit` of them, and the count is the size of the whole table |
| Repository.UsersRepository.Update | src/modules/users/users.repository.ts:62-72 | the row changes exactly as the database's update outcome says, and nothing else changes |
| Repository.UsersRepository.Delete | src/modules/users/users.repository.ts:74-80 | the id's row is removed, and the result is true iff it existed |
| Service.Rethrow | src/modules/users/users.service.ts:17-25 | a database failure propagates to the caller unchanged |
| Service.UsersService.constructor | src/modules/users/users.service.ts:15 | the service works on the repository it was given |
| Service.UsersService.CreateUser | src/modules/users/users.service.ts:17-25 | a taken email gives `EMAIL_EXISTS` and writes nothing; otherwise the row is inserted; the unique-index error never reaches the caller |
| Service.UsersService.GetUserById | src/modules/users/users.service.ts:27-33 | it returns the stored row, or `USER_NOT_FOUND` iff there is none |
| Service.UsersService.GetAllUsers | src/modules/users/users.service.ts:35-51 | it echoes the query, returns the repository's page and count, and adds the page count; a page past the last is empty, and a page within range is not |
| Service.EmailChangeConflicts | src/modules/users/users.service.ts:61-66 | a conflict means another row holds the new email; in a well-formed table, a non-empty new email held by another row is always a conflict |
| Service.OwnEmailResubmission | src/modules/users/users.service.ts:61-71 | resubmitting a row's own email skips the duplicate check, and the update succeeds whenever the name fits its column |
| Service.UsersService.UpdateUser | src/modules/users/users.service.ts:53-74 | an absent id gives `USER_NOT_FOUND` and a conflicting new email gives `EMAIL_EXISTS`, both before any write; a success returns and stores the patched row; the unique-index error is reachable only through an empty new email |
| Service.UsersService.DeleteUser | src/modules/users/users.service.ts:76-81 | the row is gone afterwards, and the call fails with `USER_NOT_FOUND` iff it was never there |
| Service.UserLifecycle | test/users.test.ts:17-91 | a user that is created, read, renamed and deleted comes back as written, renamed with `updatedAt` moved, and afterwards as `USER_NOT_FOUND` |
| Schemas.ValidCreateBody | src/modules/users/users.schemas.ts:7-14 | a create body passes exactly when an update body supplying the same two fields passes: both schemas put the same constraint on each field |
| Schemas.ValidUpdateBody | src/modules/users/users.schemas.ts:17-24 | a supplied name has 2 to 255 characters and a supplied email is in the email format with at most 255; an omitted field is not checked |
| Schemas.SchemaRejection | src/modules/users/users.schemas.ts:8-34 | a request that fails a schema is rejected with a `VALIDATION` error carrying the schema's `error` text |
| Schemas.CheckIdParam | src/modules/users/users.schemas.ts:27-29 | an id passes unchanged iff it is in the uuid format, and is otherwise rejected with `Invalid user ID format` |
| Schemas.ValidPaginationQuery | src/modules/users/users.schemas.ts:32-35 | the schema accepts a page or limit exactly when `parsePaginationParams` would keep it unchanged |
| Schemas.CreateBodyFitsColumns | src/modules/users/users.schemas.ts:7-14 | a body the create schema accepts always fits the table's columns |
| Schemas.UpdateBodyFitsColumns | src/modules/users/users.schemas.ts:17-24 | a body the update schema accepts, applied to a stored row, still fits the columns |
| Schemas.UpdateBodyEmailNonEmpty | src/modules/users/users.schemas.ts:17-24 | when the email format rejects `""`, an accepted update never carries an empty email |
| Controller.WrapUser | src/modules/users/users.controller.ts:21-24 | a service result is wrapped in a success envelope; a service error propagates unchanged (this also covers `update`, lines 36-39) |
| Controller.Create | src/modules/users/users.routes.ts:14-21 | a created user is returned with status 201 in a success envelope, and an error propagates |
| Controller.GetAll | src/modules/users/users.controller.ts:26-34 | the list envelope carries the service's rows and its page, limit, total and page count |
| Controller.Delete | src/modules/users/users.controller.ts:41-44 | a successful delete answers `{deleted: true}` |
| Controller.ListOptions | src/modules/users/users.routes.ts:33-37 | a missing page is 1 and a missing limit is 10; supplied values are passed through |
| Controller.RouteDefaultsAgreeWithParser | src/modules/users/users.routes.ts:35-36 | for any query the schema accepts, the route's defaults give the same page and limit as `parsePaginationParams` |
| Controller.DeleteThenGet | test/users.test.ts:75-91 | deleting a stored user answers `{deleted: true}`, and reading it afterwards fails with `USER_NOT_FOUND` |
| ErrorHandler.BranchOf | src/app.ts:34-66 | validation errors are recognised first, then `AppError`s, then Elysia's `NOT_FOUND`, and everything else is unhandled |
| ErrorHandler.ValidationFailed | src/app.ts:35-43 | a validation failure is reported as a 400 `VALIDATION_ERROR` |
| ErrorHandler.RouteNotFoundError | src/app.ts:52-58 | an unknown route is reported as a 404 `NOT_FOUND` |
| ErrorHandler.ResolveRequestId | src/app.ts:32 | the stored request id when it is non-empty, otherwise `unknown` |
| ErrorHandler.OnError | src/app.ts:31-67 | each branch sets its status (400, the error's own status, 404 or 500) and its envelope; the request id falls back to `unknown` |
| ErrorHandler.ValidationCheckedFirst | src/app.ts:35-49 | an `AppError` whose code is `VALIDATION` is answered as a validation failure, not with its own status |
| ErrorHandler.StatusAlwaysAnError | src/app.ts:31-67 | every answer the handler gives has a 4xx or 5xx status |
| ErrorHandler.RateLimitRejectionSurfaces | src/middlewares/rateLimit.ts:67-74 | a rate-limit rejection reaches the client as 429 `RATE_LIMIT_EXCEEDED` with `retryAfter` in its details |
| ErrorHandler.ServiceErrorsSurface | src/modules/users/users.service.ts:17-81 | `EMAIL_EXISTS` gives 409 and `USER_NOT_FOUND` gives 404; a database error gives a generic 500 |
| ErrorHandler.SchemaRejectionAnswers400 | src/app.ts:35-43 | a malformed user id answers 400 `VALIDATION_ERROR` with the schema's text in `details.message` |
| RequestId.ChooseRequestId | src/middlewares/requestId.ts:11-12 | a non-empty incoming `x-request-id` is reused, and otherwise a fresh id is generated |
| RequestId.Derive | src/middlewares/requestId.ts:9-18 | the chosen id is returned and stored for the request |
| RequestId.OnAfterHandle | src/middlewares/requestId.ts:19-23 | the response gets `X-Request-Id` equal to the stored id, and no other header changes |
| RequestId.EchoRequestId | src/middlewares/requestId.ts:9-23 | over one request, the response's `X-Request-Id` equals the stored id, which is the incoming one when it was given |
| SecureHeaders.SecurityHeaders | src/middlewares/secureHeaders.ts:5-36 | the six fixed headers and the three no-cache headers are always set; HSTS is set iff in production, with a one-year `includeSubDomains; preload` policy |
| SecureHeaders.OnAfterHandle | src/middlewares/secureHeaders.ts:5-36 | the response headers become the old ones overwritten by the security headers |
| SecureHeaders.OtherHeadersUntouched | src/middlewares/secureHeaders.ts:5-36 | a header the middleware does not name keeps its value |
| RateLimit.ClientIp | src/middlewares/rateLimit.ts:24-38 | the first hop of a non-empty `x-forwarded-for`, trimmed, contains no comma; otherwise a non-empty `x-real-ip` is used, and otherwise `127.0.0.1` |
| RateLimit.Step | src/middlewares/rateLimit.ts:45-80 | `max == 0` disables the limiter and leaves the store alone; otherwise the client's entry is written and every other client's entry is kept |
| RateLimit.RejectionError | src/middlewares/rateLimit.ts:67-74 | a rejection is a 429 `RATE_LIMIT_EXCEEDED` carrying `retryAfter` |
| RateLimit.Swept | src/middlewares/rateLimit.ts:15-22 | the cleanup keeps exactly the entries whose window has not ended, unchanged |
| RateLimit.FirstRequestAllowed | src/middlewares/rateLimit.ts:57-63 | a client with no live window is allowed and opens a window of `windowMs` with count 1 |
| RateLimit.LiveWindowCounts | src/middlewares/rateLimit.ts:64-75 | inside a live window the count goes up by one, and the request is rejected iff the count now exceeds `max` |
| RateLimit.RetryAfterBounds | src/middlewares/rateLimit.ts:68 | inside a window, `retryAfter` lies between 0 and the window length in whole seconds |
| RateLimit.ReplayInsideWindow | src/middlewares/rateLimit.ts:64-75 | within one window the i-th later request sees count `old + i + 1` and is rejected iff that count exceeds `max` |
| RateLimit.OneTooManyRejected | src/middlewares/rateLimit.ts:45-80 | of `max + 1` requests inside one window, the first `max` are allowed and the last is rejected with a bounded `retryAfter` |
| RateLimit.SweepIsTransparent | src/middlewares/rateLimit.ts:15-22 | sweeping expired entries never changes a later decision |
| RateLimit.RateLimitHeaders | src/middlewares/rateLimit.ts:91-93 | exactly the three `X-RateLimit-*` headers are produced |
| RateLimit.RateLimitHeadersParseBack | src/middlewares/rateLimit.ts:91-93 | the headers read back as `max`, the remaining count clamped at 0, and the reset time in whole seconds rounded up |
| RateLimit.StepKeepsCountsPositive | src/middlewares/rateLimit.ts:57-79 | every stored count stays at least 1 |
| RateLimit.AllowedRemainingBounds | src/middlewares/rateLimit.ts:78 | an allowed request leaves `0 <= remaining < max` |
| RateLimit.RateLimiter.constructor | src/middlewares/rateLimit.ts:12 | the store starts empty |
| RateLimit.RateLimiter.OnBeforeHandle | src/middlewares/rateLimit.ts:45-80 | the store and the request's remaining and reset values change exactly as `Step` decides, and a rejection is thrown as the 429 error |
| RateLimit.RateLimiter.Sweep | src/middlewares/rateLimit.ts:15-22 | the loop deletes exactly the entries whose window ended before `now` |
| RateLimit.OnAfterHandle | src/middlewares/rateLimit.ts:81-94 | with the limiter enabled, the three headers are added and no other header changes; with `max == 0` nothing changes |
| Logging.Rank | src/middlewares/logger.ts:6-11 | debug, info, warn and error rank 0, 1, 2 and 3, each level its own rank |
| Logging.ShouldLog | src/middlewares/logger.ts:30-32 | `debug` logs everything, `info` all but debug, `warn` warnings and errors, `error` only errors, and any other configured level nothing |
| Logging.LevelOfName | src/middlewares/logger.ts:6-11 | a level name is recognised only if it names that level |
| Logging.LevelNameRoundTrip | src/middlewares/logger.ts:6-11 | every level is recognised from its own name |
| Logging.FilterExtremes | src/middlewares/logger.ts:30-32 | errors are logged iff the configured level is a known one, and debug entries only under `debug` |
| Logging.FilterMonotone | src/middlewares/logger.ts:30-32 | when a level passes the filter, every more severe level passes too |
| Logging.UnknownLevelSilences | src/middlewares/logger.ts:30-32 | an unknown configured level silences every entry |
| Logging.StatusSegment | src/middlewares/logger.ts:41-42 | the status segment is empty iff the status is absent, and otherwise is a space followed by the status number |
| Logging.LatencySegment | src/middlewares/logger.ts:41 | the latency segment is empty iff the latency is absent, and otherwise is the number followed by `ms` |
| Logging.ErrorSegment | src/middlewares/logger.ts:43 | the error segment is empty iff there is no error, and otherwise shows its message |
| Logging.FormatDev | src/middlewares/logger.ts:40-44 | a development log line starts with `[`; its layout is stated by the three lemmas below |
| Logging.LineLayout | src/middlewares/logger.ts:44 | a line opens with `[timestamp] LEVEL [`, right after the shortened request id come `] METHOD PATH` and the status and latency segments, and right after those ` - MESSAGE` and the error segment end the line; nothing else is in it |
| Logging.LineShowsShortRequestId | src/middlewares/logger.ts:44 | a line shows at most the first 8 characters of the request id, in brackets after the upper-case level |
| Logging.LineEnding | src/middlewares/logger.ts:44 | a line ends with ` - message`, followed by the error segment |
| Logging.Log | src/middlewares/logger.ts:48-66 | an entry is emitted iff the filter passes; errors go to `console.error`, warnings to `console.warn`, debug entries to `console.debug` and info entries to `console.log` |
| Logging.DeriveStartTime | src/middlewares/logger.ts:69-73 | the request's start time is set to now |
| Logging.RequestReceived | src/middlewares/logger.ts:74-89 | the debug entry is emitted only under `debug`, with the request id defaulting to `unknown` |
| Logging.RequestCompleted | src/middlewares/logger.ts:90-106 | the info entry has the status (200 when unset or 0) and the latency since the start |
| Logging.RequestFailed | src/middlewares/logger.ts:107-128 | the error entry has the status (500 when unset or 0); its latency is present iff a non-zero start time was stored; its stack appears only in development |
| Logging.FailuresAlwaysLogged | src/middlewares/logger.ts:107-128 | under any known level, a failed request is always logged on `console.error` |
| Logging.UtilityEntry | src/middlewares/logger.ts:132-185 | a utility entry uses `-` for method and path, and the request id from its metadata (even `""`) or `system` |
| Logging.UtilityLog | src/middlewares/logger.ts:132-185 | the utility logs emit their entry iff the level passes the filter |
| Config.EnvOr | src/config/env.ts:6-24 | a set, non-empty variable is used, and otherwise the default |
| Config.LoadEnvSchema | src/config/env.ts:4-25 | each setting is read from its variable or its default; numbers go through `parseInt`; credentials are on only for the exact string `true` |
| Config.TrimmedList | src/config/env.ts:54-56 | the list has one trimmed item per comma-separated field |
| Config.TrimmedListOfJoin | src/config/env.ts:54-56 | comma-joined items without surrounding blanks read back as the same items |
| Config.BuildConfig | src/config/env.ts:42-66 | production and development are recognised exactly by name and never both; the CORS lists are the trimmed fields; the other settings are copied |
| Config.Missing | src/config/env.ts:29-30 | a required variable is reported missing iff it is unset or empty |
| Config.ValidateEnv | src/config/env.ts:28-38 | a missing `DATABASE_URL` is ignored under `test`, aborts start-up in production, and is only reported otherwise |
| Config.LoadConfig | src/config/env.ts:4-66 | the configuration is read from the environment: the production and development flags from `NODE_ENV`, the port and rate limits through `parseInt`, the origins as a trimmed list, credentials only for `true`, and the log level |
| Config.DefaultsWhenUnset | src/config/env.ts:4-66 | with an empty environment the application runs in development on `0.0.0.0:3000`, allows 100 requests per 60000 ms, and logs at `info` with the default CORS lists |
| Config.DefaultNumbersParse | src/config/env.ts:7-21 | the numeric defaults parse to 3000, 100 and 60000 |
| Config.DefaultOriginsRead | src/config/env.ts:14 | the default origins read as the single item `*` |
| Config.DefaultMethodsRead | src/config/env.ts:15 | the default methods read as the six HTTP methods |
| Config.DefaultHeadersRead | src/config/env.ts:16 | the default headers read as `Content-Type` and `Authorization` |
| Text.TrimIdempotent | src/config/env.ts:54-56 | trimming twice is trimming once |
| Text.JoinSplit | src/config/env.ts:54-56 | joining the fields of a split gives back the string |
| Text.SplitJoin | src/config/env.ts:54-56 | splitting a join of separator-free items gives back the items |
| Text.ParseIntOfIntToString | src/middlewares/rateLimit.ts:91-93 | `parseInt(String(n), 10)` gives back `n` |

## Left out

- The production log format (`JSON.stringify` of the entry) is left out. Only the development line format is modelled. `Logging.Log` records the console channel and the entry instead of writing to the console.
- The `query` field of the debug entry and every utility-log metadata key other than `requestId` are left out. Because the metadata is spread after the fixed fields, a metadata key such as `level` or `message` could also override them; that is not modelled.
- `Logging.RequestCompleted` takes the start time as an integer. The source would compute `NaN` if no start time had been stored, and that case is not modelled.
- The log timestamp is an opaque string passed in by the caller, not computed from a clock.
- The `setInterval` timer that runs the rate-limit cleanup every 60 seconds is left out. `RateLimit.RateLimiter.Sweep` is the body of one tick, called explicitly.
- `RateLimit.RateLimiter.OnBeforeHandle` takes `max` and `windowMs` as integers. A configuration that parsed to `NaN` is not fed to the limiter.
- `Context.RequestContext` is one object per request. In the source, `store` is shared by the whole application, so concurrent requests overwrite each other's `requestId`, `startTime` and `rateLimit*` values; the model treats the store as request-local.
- Concurrency is left out. Requests interleaving in the rate limiter or the database, and the `Promise.all` in `findAll`, are treated as sequential.
- The database driver, the SQL text and the connection (`src/db/index.ts`) are left out. The table is a map from id to row, with the constraints PostgreSQL enforces on it.
- PostgreSQL gives no order to rows with equal `createdAt` under `ORDER BY created_at DESC`. The model chooses one: such rows are ordered by insertion, and `Repository.UsersRepository.Update` leaves that order unchanged.
- `Repository.UsersRepository.FindAll` requires `page >= 1` and `limit >= 0`, which the route's schema guarantees. `Service.UsersService.GetAllUsers` requires `limit >= 1` for the same reason; the source would divide by zero otherwise.
- `UserModel.Patched` takes the update time from the caller, so the model does not claim that `updatedAt` only increases. That depends on the clock.
- Timestamps are integers of milliseconds, not `Date` objects. Pagination and latency values are integers, not floating-point numbers.
- Schemas.ValidCreateBody, Schemas.ValidUpdateBody: the 2 and 255 bounds count Dafny characters (Unicode scalar values), whereas the schema's `minLength`/`maxLength` count UTF-16 code units, so names or emails with characters outside the Basic Multilingual Plane are measured differently (a single emoji is one character here and two units in the source). The column bounds in `UserModel.FitsColumns` count characters, as `varchar(255)` does.
- The email regular expression `emailPattern` in `users.schemas.ts` is never used by the source. The `email` and `uuid` formats are parameters, not implementations of the format checks. The framework's validation error is modelled by its code and the schema's `error` text only.
- `crypto.randomUUID()` and the database's `gen_random_uuid()` column default are parameters. The model does not prove that ids are unique, only that an insert with a used id fails.
- The Elysia plumbing is left out: plugin registration order, `derive` and `as('global')`, the Swagger documentation, and the string form of `set.status`.
- The health routes, the CORS middleware, server start-up and shutdown (`src/server.ts`) are not part of this model.
- `ErrorHandler.OnError` prints unhandled errors with `console.error`, and that printing is left out.
