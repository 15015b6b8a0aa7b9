# eventshog, modelled in Dafny

eventshog is a NestJS service that ingests analytics events from client
apps and answers analytics queries over them. This project models its core
and proves properties of that model:

- **Ingestion.** The events controller normalises a track request into an
  event message (`Events`). The in-process bus publishes it and its
  listener forwards it (`Bus`). The Kafka service shapes broker messages
  and keeps the lazy-connect flag (`Kafka`). The event processor looks the
  app up, provisions the tenant database `tenant_<appId>`, inserts one row
  and bumps the app's counter (`Processor`). All of this runs over an
  abstract ClickHouse catalog (`ClickHouse`) and the apps table (`Apps`).
- **Apps and users.** The app and user entities (`AppEntity`,
  `UserEntity`), their repositories (`Apps`, `Users`) and the auth service
  (`Auth`). The API-key and project-key guards (`Guards`).
- **Password reset.** The OTP table (`Otps`) and the reset service
  (`PasswordReset`).
- **Analytics.** The analytics repository (`Analytics`): the three checks
  of ad-hoc queries, the SQL text of every report, and the reports built
  from the answers. The analytics service (`Reports`): content
  performance, error analytics and the conversion funnel.
- **Common code.** Pagination metadata (`Pagination`), the pagination and
  response interceptors (`PaginationInterceptor`, `ResponseInterceptor`),
  the paginated repository's query plans (`PagedRepository`), and the
  phone-number utilities and validation pipe (`Phone`).
- **Supporting modules.** JavaScript values and truthiness (`Values`);
  string, number and `parseInt` helpers (`Text`); a stable descending sort
  (`Sorting`); error kinds (`Errors`).

Objects whose fields the source updates in place are classes:
- the store catalog;
- the Kafka service;
- the repositories and their tables;
- the services;
- the query builder.

Their methods are proved against specification functions over their
state. Calls into the database, the broker, the clock and the random
source are parameters: an answer, a success flag, a fresh id or the
current instant.

## Model

| member | source | states |
|---|---|---|
| Phone.ConvertToStandardFormat | src/common/utils/phone.utils.ts:18-37 | the result is all digits; after non-digits are stripped, a leading `0` becomes `255`, a `255…` number is kept, a `7…` number gets `255` in front, and anything else stays as cleaned |
| Phone.PlusBranchUnreachable | src/common/utils/phone.utils.ts:32-33 | the `+` branch is dead code: the cleaned number never starts with `+` |
| Phone.ConvertIdempotent | src/common/utils/phone.utils.ts:18-37 | converting an already converted number changes nothing |
| Phone.FilterPhoneNumber | src/common/utils/phone.utils.ts:62-73 | a number comes back exactly when the converted number starts with `255` and has 12 characters, and it is that converted number |
| Phone.IsValidPhoneNumber | src/common/utils/phone.utils.ts:62-64 | a valid number has a full five-character prefix for the provider lookup, and it starts with `255` |
| Phone.DetermineProvider | src/common/utils/phone.utils.ts:42-57 | each of Tigo, Mpesa, Airtel and Halopesa is chosen exactly when the first five digits of the converted number are in its prefix list; Azampesa exactly when they are in none |
| Phone.PrefixListsDisjoint | src/common/utils/phone.utils.ts:10-13 | no prefix belongs to two providers, so the order of the lookups does not matter |
| Phone.Transform | src/common/pipes/phone-validation.pipe.ts:6-14 | BadRequest with the fixed message exactly when the filter refuses the number; otherwise the converted number, which starts with `255`, has 12 digits and nothing else |
| Phone.TransformKeepsStandardNumber | src/common/pipes/phone-validation.pipe.ts:6-14 | a valid 12-digit `255…` number passes the pipe unchanged |
| Phone.TransformIdempotent | src/common/pipes/phone-validation.pipe.ts:6-14 | what the pipe returns passes the pipe again unchanged |
| Pagination.CeilDiv | src/common/dto/pagination.dto.ts:88 | `Math.ceil(a / b)` for a positive divisor: the least `q` with `a <= q * b` |
| Pagination.PageCountOf | src/common/dto/pagination.dto.ts:88 | the page count is finite exactly when the limit is not 0, and then it is the ceiling of total over limit; a zero limit gives `Infinity` for a positive total and `NaN` for a zero total |
| Pagination.DefaultQuery | src/common/dto/pagination.dto.ts:5-57 | a query that gives nothing has page 1, limit 10 (within 1..100), descending order, and no search or sort field |
| Pagination.NewPaginationMeta | src/common/dto/pagination.dto.ts:84-93 | keeps page, limit and total; there is a next page exactly when the page is below the page count, a previous page exactly when the page is above 1, and the neighbour pages are `page ± 1` or null accordingly |
| Pagination.HasNextIffMoreItems | src/common/dto/pagination.dto.ts:88-89 | with a positive limit there is a next page exactly when `page * limit < total` |
| Pagination.PageCountIsLeast | src/common/dto/pagination.dto.ts:88 | with a positive limit and a non-negative total, the page count is the least number of pages of `limit` items that hold `total` items |
| Pagination.NewPaginatedResponse | src/common/dto/pagination.dto.ts:96-112 | the envelope carries the data unchanged, status `success`, the fixed message, and meta equal to `NewPaginationMeta(page, limit, total)`, so the page count and the next/previous facts proved of that meta hold of the response |
| PaginationInterceptor.Request.constructor | src/common/interceptors/pagination.interceptor.ts:9-10 | a request carries its query string and no pagination options yet |
| PaginationInterceptor.SortOrderOf | src/common/interceptors/pagination.interceptor.ts:19 | the order is ascending exactly when the query says `asc`; anything else, absent included, is descending |
| PaginationInterceptor.BuildOptions | src/common/interceptors/pagination.interceptor.ts:13-28 | page is `parseInt(page) \|\| 1` raised to 1 when below it; limit is `parseInt(limit) \|\| 10`, with 10 when below 1 and 100 when above 100; skip is `(page - 1) * limit`, never negative; search and sortBy are passed through |
| PaginationInterceptor.AttachOptions | src/common/interceptors/pagination.interceptor.ts:9-31 | afterwards the request carries valid options, and they are the ones `buildOptions` derives from its query: page and limit parsed with their defaults and clamped, skip from the clamped values, and search, sortBy and sortOrder from the query |
| PaginationInterceptor.MapResponse | src/common/interceptors/pagination.interceptor.ts:33-61 | anything that is not an array is returned as it is; an array is wrapped whole as `items`, with meta computed from the options and the array's length, status `success` and the fixed message |
| PaginationInterceptor.MapResponseIdempotent | src/common/interceptors/pagination.interceptor.ts:36-38 | mapping an already mapped response changes nothing, because a wrapped array has truthy `meta` and `items` |
| PaginationInterceptor.WrappedHasNext | src/common/interceptors/pagination.interceptor.ts:49 | a wrapped array has a next page exactly when `page * limit` is less than its length |
| Values.ParseIntOr | src/common/interceptors/pagination.interceptor.ts:14-16 | `parseInt(x) \|\| d`: the parsed integer when the parameter is present and parses to a non-zero number, and `d` when it is absent, `NaN` or 0 |
| Values.ParseIntOrReadsInteger | src/common/interceptors/pagination.interceptor.ts:14-16 | a parameter holding an integer's decimal text gives that integer, or the default when it is 0 |
| ResponseInterceptor.CaseOf | src/common/interceptors/response.interceptor.ts:22-77 | the case is AlreadyWrapped exactly when the data is an object with `status` and `message`, and PlainArray exactly when it is an array; ItemsAndTotal needs `items` and `total`, and SuccessAndMessage needs `success` and `message` |
| ResponseInterceptor.TotalPages | src/common/interceptors/response.interceptor.ts:35 | for a numeric total, the page count is the ceiling of total over limit; `null` gives 0 pages and `true` counts as 1; a total `Number` cannot read gives `NaN` |
| Values.JsNumber | src/common/interceptors/response.interceptor.ts:35 | `Number` maps a number to itself, `null`, `false` and the empty string to 0, `true` to 1, and `undefined` and `NaN` to `NaN` |
| ResponseInterceptor.Intercept | src/common/interceptors/response.interceptor.ts:15-80 | a wrapped response is returned as it is; any other response gets status `error` only for a falsy `success`, and `success` otherwise; its message is the data's own for the success/message case and `Operation successful` otherwise; its data is the `items`, or `data \|\| null`, or the whole value, by case |
| ResponseInterceptor.PageMeta | src/common/interceptors/response.interceptor.ts:34-47 | `total_pages` is the ceiling of total over limit; `hasNext` is `page < total_pages`, and false against `NaN` |
| ResponseInterceptor.Envelope | src/common/interceptors/response.interceptor.ts:54-58 | the envelope has the given status, message and data, so it counts as already wrapped |
| ResponseInterceptor.PagedEnvelope | src/common/interceptors/response.interceptor.ts:37-48 | the envelope has the given status, message, data and meta |
| ResponseInterceptor.InterceptAlwaysEnveloped | src/common/interceptors/response.interceptor.ts:15-80 | every response leaves the interceptor as an object with `status` and `message` |
| ResponseInterceptor.InterceptIdempotent | src/common/interceptors/response.interceptor.ts:22-26 | intercepting an intercepted response changes nothing |
| ResponseInterceptor.ItemsAndTotalMeta | src/common/interceptors/response.interceptor.ts:32-46 | for a service result with a numeric total, `total_pages` is the ceiling of total over `Number(limit) \|\| 10`, and for a positive limit `hasNext` holds exactly when `page * limit < total` |
| Values.NumberOr | src/common/interceptors/response.interceptor.ts:32-33 | `Number(x) \|\| d`: `Number(x)` when that is a non-zero number, and `d` when the parameter is absent or reads as `NaN` or 0 |
| Values.NumberOrReadsNatural | src/common/interceptors/response.interceptor.ts:32-33 | a parameter holding a natural number's decimal text gives that number, or the default when it is 0 |
| Values.NumberOfDigits | src/common/interceptors/response.interceptor.ts:32-33 | `Number` reads a non-empty digit string as its decimal value |
| Values.NumberOf | src/common/interceptors/response.interceptor.ts:32-33 | `Number(x)` on a query string: an absent parameter is `NaN` and blank text is 0 |
| Values.Or | src/common/interceptors/response.interceptor.ts:67 | `a \|\| b` is `a` when `a` is truthy and `b` otherwise |
| Values.Truthy | src/common/interceptors/response.interceptor.ts:67 | exactly six values are falsy: `undefined`, `null`, `false`, `0`, `NaN` and the empty string |
| AppEntity.PlatformName | src/modules/auth/entities/app.entity.ts:13-18 | each platform is stored as one of `android`, `ios`, `web`, `desktop` |
| AppEntity.StatusName | src/modules/auth/entities/app.entity.ts:20-24 | each status is stored as one of `active`, `inactive`, `suspended` |
| AppEntity.EnumNamesInjective | src/modules/auth/entities/app.entity.ts:13-24 | different enum members have different stored names |
| AppEntity.DisplayName | src/modules/auth/entities/app.entity.ts:100-102 | the display name starts with the name, followed by ` (<platform>)` |
| AppEntity.DisplayNameInjective | src/modules/auth/entities/app.entity.ts:100-102 | two apps whose names have the same length and whose display names are equal have the same name and the same platform |
| AppEntity.IsActive | src/modules/auth/entities/app.entity.ts:96-98 | an app is active exactly when its stored status is `active` |
| AppEntity.NewApp | src/modules/auth/entities/app.entity.ts:43-77 | a new row is ACTIVE, has event count 0 and no last event, and takes its id, keys, owner, creation time, name, platform, description, bundle id, website URL and icon URL from its inputs |
| AppEntity.GenerateApiKey | src/modules/auth/repositories/app.repository.ts:64-66 | the key is `eh_` followed by 64 lower-case hex digits |
| AppEntity.GenerateAppId | src/modules/auth/repositories/app.repository.ts:68-70 | the id is `app_` followed by 32 lower-case hex digits |
| AppEntity.GeneratedKeyIsNeverAppId | src/modules/auth/repositories/app.repository.ts:64-70 | no generated api key has the form of a generated app id |
| UserEntity.HashPassword | src/modules/auth/repositories/user.repository.ts:45-48 | the hash of a password matches that password |
| UserEntity.BcryptInput | src/modules/auth/repositories/user.repository.ts:45-52 | bcrypt reads a password of up to 72 characters whole, and only the first 72 characters of a longer one |
| UserEntity.ComparePassword | src/modules/auth/repositories/user.repository.ts:50-52 | a matching hash was made from a prefix of the password of at most 72 characters; up to 72 characters, from exactly the password |
| UserEntity.HashMatchesOnlyItsPassword | src/modules/auth/repositories/user.repository.ts:50-52 | comparing a password with a hash succeeds exactly when it agrees with the password the hash was made from on the first 72 characters |
| UserEntity.ShortPasswordMatchesOnlyItself | src/modules/auth/repositories/user.repository.ts:45-52 | below 72 characters, a hash matches only the very password it was made from |
| UserEntity.LongPasswordTailIgnored | src/modules/auth/repositories/user.repository.ts:45-52 | a password of 72 characters or more still matches with anything appended: the tail is never checked |
| UserEntity.NewUser | src/modules/auth/entities/user.entity.ts:37-51 | a new user has role USER, is active, is not verified, and takes id, email, hash and names from its inputs |
| UserEntity.FullName | src/modules/auth/entities/user.entity.ts:67-69 | with no first and no last name the full name is empty |
| UserEntity.FullNameOfTwoNames | src/modules/auth/entities/user.entity.ts:67-69 | two names without blanks at their ends give `first last` |
| UserEntity.FullNameOfFirstNameOnly | src/modules/auth/entities/user.entity.ts:67-69 | a first name alone gives that name, trimmed: the separating blank disappears |
| UserEntity.FullNameOfLastNameOnly | src/modules/auth/entities/user.entity.ts:67-69 | a last name alone gives that name, trimmed: the leading blank disappears |
| UserEntity.IsEmailVerified | src/modules/auth/entities/user.entity.ts:71-73 | a verified user is never a row as registration creates it |
| Users.UserRepository.constructor | src/modules/auth/repositories/user.repository.ts:9-12 | the table starts empty |
| Users.UserRepository.FindById | src/modules/auth/repositories/user.repository.ts:14-16 | a user comes back exactly when the id is stored, and it is the stored row |
| Users.UserRepository.FindByEmail | src/modules/auth/repositories/user.repository.ts:18-20 | a user comes back exactly when some stored user has that email, and it is that stored row |
| Users.UserRepository.Create | src/modules/auth/repositories/user.repository.ts:22-25 | the table gains exactly the new row, and emails stay unique |
| Users.UserRepository.UpdatePassword | src/modules/auth/repositories/user.repository.ts:33-37 | only that user's hash changes; an unknown id changes nothing |
| Apps.ApplyPatch | src/modules/auth/repositories/app.repository.ts:42-44 | the patched row keeps id, app id, owner, counter and times; each of name, description, platform, status and api key takes the patch's value when the patch names it, and every other column, bundle id and URLs included, keeps its value |
| Apps.Select | src/modules/auth/repositories/app.repository.ts:26-31 | returns exactly the rows that satisfy the condition, each once |
| Apps.AppRepository.constructor | src/modules/auth/repositories/app.repository.ts:9-12 | the table starts empty |
| Apps.AppRepository.FindById | src/modules/auth/repositories/app.repository.ts:14-16 | an app comes back exactly when the id is stored, and it is the stored row |
| Apps.AppRepository.FindByApiKey | src/modules/auth/repositories/app.repository.ts:18-20 | an app comes back exactly when some row has that api key, and it is that row |
| Apps.AppRepository.FindByAppId | src/modules/auth/repositories/app.repository.ts:22-24 | an app comes back exactly when some row has that app id, and it is that row |
| Apps.AppRepository.FindByUserId | src/modules/auth/repositories/app.repository.ts:26-31 | exactly the user's apps, each once, newest first |
| Apps.AppRepository.FindActiveApps | src/modules/auth/repositories/app.repository.ts:72-77 | exactly the ACTIVE apps, each once |
| Apps.AppRepository.Create | src/modules/auth/repositories/app.repository.ts:33-40 | the table gains exactly the new row, which gets a fresh `eh_…` api key and a fresh `app_…` app id whatever the draft says; the key columns stay unique |
| Apps.AppRepository.Update | src/modules/auth/repositories/app.repository.ts:42-44 | the patch is applied to that row alone; an unknown id succeeds and changes nothing; an api key already used by another row fails and changes nothing |
| Apps.AppRepository.Delete | src/modules/auth/repositories/app.repository.ts:46-48 | exactly that row is removed |
| Apps.AppRepository.IncrementEventCount | src/modules/auth/repositories/app.repository.ts:50-62 | an unknown id fails with `App with id <id> not found` and changes nothing; otherwise only that row changes, its count by one and its last event to now |
| Auth.AuthService.ValidateApiKey | src/modules/auth/services/auth.service.ts:138-144 | an app comes back exactly when an ACTIVE app has that api key, and it is that app |
| Auth.AuthService.Register | src/modules/auth/services/auth.service.ts:40-54 | a taken email gives Conflict and stores nothing; otherwise exactly one new user is stored, with the default columns and only the hash of the password |
| Auth.AuthService.ValidateUser | src/modules/auth/services/auth.service.ts:65-77 | a user comes back exactly when an active user has that email and the password matches its hash |
| Auth.AuthService.CreateApp | src/modules/auth/services/auth.service.ts:79-86 | the new app is `NewApp` of the draft with the api key `eh_` + 64 hex digits and the app id `app_` + 32 hex digits, owned by the caller, ACTIVE, with count 0, and is the only row added |
| Auth.AuthService.GetUserApps | src/modules/auth/services/auth.service.ts:88-90 | exactly the user's apps, newest first |
| Auth.AuthService.GetAppById | src/modules/auth/services/auth.service.ts:92-98 | the app comes back exactly when it exists and belongs to the user; a missing app and another user's app give the same NotFound |
| Auth.AuthService.UpdateApp | src/modules/auth/services/auth.service.ts:100-105 | succeeds exactly when the caller owns the app and no other app already has a patched api key; a missing or foreign app fails as `getAppById` does and a key collision fails with the unique violation, both changing nothing; on success only that row changes, by the patch, and the updated row is returned |
| Auth.AuthService.DeleteApp | src/modules/auth/services/auth.service.ts:107-110 | succeeds exactly when the app is the user's; then exactly that row is removed, otherwise nothing changes |
| Auth.AuthService.RegenerateApiKey | src/modules/auth/services/auth.service.ts:112-117 | succeeds exactly when the app is the user's; then only that app's api key changes, to the returned fresh `eh_…` key |
| Auth.AuthService.ChangePassword | src/modules/auth/services/auth.service.ts:119-136 | NotFound for an unknown user and Unauthorized for a wrong current password, both without a change; otherwise only that user's hash changes, to the hash of the new password |
| Auth.AuthService.IncrementEventCount | src/modules/auth/services/auth.service.ts:146-148 | fails exactly for an unknown id; otherwise that app's count goes up by one and its last event becomes now |
| Otps.FirstValid | src/modules/auth/repositories/password-reset-otp.repository.ts:25-33 | a row that is found is an unused row of that user with that code; when none is found, no row is one |
| Otps.Invalidated | src/modules/auth/repositories/password-reset-otp.repository.ts:39-44 | the table keeps its length and order; exactly the user's rows are marked used, and the rest are unchanged |
| Otps.MarkedUsed | src/modules/auth/repositories/password-reset-otp.repository.ts:35-37 | the table keeps its length and order; exactly the rows with that id are marked used |
| Otps.Survivors | src/modules/auth/repositories/password-reset-otp.repository.ts:46-51 | a row survives exactly when it is not an unused row whose expiry equals the instant of the cleanup; ids stay unique |
| Otps.InvalidatedLeavesNoValidOtp | src/modules/auth/repositories/password-reset-otp.repository.ts:39-44 | after invalidation the user has no unused row, so no code of that user is valid |
| Otps.InvalidateIdempotent | src/modules/auth/repositories/password-reset-otp.repository.ts:39-44 | invalidating twice is the same as invalidating once |
| Otps.OtpRepository.constructor | src/modules/auth/repositories/password-reset-otp.repository.ts:9-14 | the table starts empty |
| Otps.OtpRepository.CreateOtp | src/modules/auth/repositories/password-reset-otp.repository.ts:16-23 | exactly one unused row with the given user, code and expiry is appended |
| Otps.OtpRepository.FindValidOtp | src/modules/auth/repositories/password-reset-otp.repository.ts:25-33 | a row is found exactly when there is an unused row of that user with that code, whatever its expiry, and the row found is one |
| Otps.OtpRepository.MarkOtpAsUsed | src/modules/auth/repositories/password-reset-otp.repository.ts:35-37 | the new table is the old one with that row marked used |
| Otps.OtpRepository.InvalidateUserOtps | src/modules/auth/repositories/password-reset-otp.repository.ts:39-44 | the new table is the old one with every row of the user marked used |
| Otps.OtpRepository.CleanupExpiredOtps | src/modules/auth/repositories/password-reset-otp.repository.ts:46-51 | only unused rows whose expiry equals the current instant are deleted; rows that expired earlier stay |
| PasswordReset.GenerateOtp | src/modules/auth/services/password-reset.service.ts:76-78 | the code is six decimal digits without a leading zero, and it reads back as the drawn number |
| PasswordReset.PasswordResetService.constructor | src/modules/auth/services/password-reset.service.ts:9-12 | the service uses the given user and OTP tables |
| PasswordReset.PasswordResetService.RequestPasswordReset | src/modules/auth/services/password-reset.service.ts:14-40 | the same message for every email; an unknown email changes nothing; for a known one, the user's earlier OTPs are invalidated and then one new OTP is appended that expires fifteen minutes later |
| PasswordReset.PasswordResetService.ResetPassword | src/modules/auth/services/password-reset.service.ts:42-74 | succeeds exactly when the email is known, an unused OTP of that user has the code and it has not expired before now; otherwise NotFound for an unknown email, then BadRequest for an unknown or used code, then BadRequest for a code that expired before now, none of them changing anything; on success only the user's hash changes, the OTP is marked used and the user keeps no unused OTP |
| PasswordReset.IssuedOtpIsFound | src/modules/auth/services/password-reset.service.ts:31-34 | right after a request, the issued code finds the row that was just issued |
| Guards.Request.constructor | src/modules/auth/guards/api-key.guard.ts:14 | a request carries its headers, query and body, and no app yet |
| Guards.ExtractApiKey | src/modules/auth/guards/api-key.guard.ts:32-50 | a `Bearer ` authorization header wins, and the key is what follows its first seven characters; otherwise a non-empty `x-api-key` header; otherwise a non-empty `api_key` query parameter; otherwise nothing |
| Guards.ExtractedApiKeyEmptyOnlyForBareBearer | src/modules/auth/guards/api-key.guard.ts:35-37 | the extracted key is empty exactly when the authorization header is the bare `Bearer ` |
| Guards.ApiKeyCanActivate | src/modules/auth/guards/api-key.guard.ts:13-30 | Unauthorized `API key is required` without a non-empty key; Unauthorized naming the key when no ACTIVE app has it; in both cases the request is unchanged; otherwise the app is attached to the request and the guard passes |
| Guards.InvalidApiKey | src/modules/auth/guards/api-key.guard.ts:24 | the refusal message is the fixed text followed by exactly the key that was refused |
| Guards.ExtractProjectKey | src/modules/auth/guards/project-key.guard.ts:31-60 | a non-empty body `projectKey` wins, then the `x-project-key` header, then the `project_key` query parameter; a Bearer token is taken last, and only when it starts with `app_` and has no `.`; a key found is never empty; with no other source, the result is exactly the Bearer token when it starts with `app_` and has no `.`, and nothing otherwise |
| Guards.JwtBearerNeverProjectKey | src/modules/auth/guards/project-key.guard.ts:47-57 | a Bearer token containing a dot is never taken as a project key |
| Guards.AppBearerIsProjectKey | src/modules/auth/guards/project-key.guard.ts:47-57 | a Bearer `app_` token without a dot is taken as the project key when no other source gives one |
| Guards.ProjectKeyCanActivate | src/modules/auth/guards/project-key.guard.ts:13-29 | Unauthorized `Project key is required` without a key and `Invalid project key` when the lookup fails, both leaving the request unchanged; otherwise the app is attached and the guard passes |
| Processor.EventRowOf | src/modules/kafka-producer/services/event-processor.service.ts:50-59 | the row keeps app id, event name, user id, timestamp and platform; the properties become JSON text; session id and version default to the empty string |
| Processor.DeviceIdNotStored | src/modules/kafka-producer/services/event-processor.service.ts:50-59 | the event's id, device id and metadata do not reach the stored row |
| Processor.RowKeepsEventFields | src/modules/kafka-producer/services/event-processor.service.ts:50-59 | two events with the same row agree on every field the row keeps, properties included |
| Processor.RowsOf | src/modules/kafka-producer/services/event-processor.service.ts:62 | the rows of a stored table, and none for a missing one |
| Processor.Counted | src/modules/auth/repositories/app.repository.ts:58-61 | the counter goes up by one, the last event becomes now, and nothing else of the app changes |
| Processor.ProvisionIdempotent | src/modules/kafka-producer/services/event-processor.service.ts:74-81 | with a valid name, the database and its events table exist after provisioning, and a second provisioning changes neither catalog nor apps |
| Processor.OneRowPerEvent | src/modules/kafka-producer/services/event-processor.service.ts:43-62 | one processed event adds at most one row, the event's row, and only to its tenant's events table; no other table changes |
| Processor.CounterFollowsInsert | src/modules/kafka-producer/services/event-processor.service.ts:61-65 | the app's counter goes up by exactly the number of rows added to its table; no other app changes |
| Processor.GeneratedTenantIsSafe | src/modules/kafka-producer/services/event-processor.service.ts:44 | the tenant name made from a generated app id is a name the store accepts |
| Processor.RecordSucceeds | src/modules/kafka-producer/services/event-processor.service.ts:43-65 | when every call to the store succeeds, the event's row is appended to the tenant's table and the counter goes up by one, whether or not database and table already existed |
| Processor.EventProcessor.constructor | src/modules/kafka-producer/services/event-processor.service.ts:11-15 | the service uses the given bus, store and auth service |
| Processor.EventProcessor.OnModuleInit | src/modules/kafka-producer/services/event-processor.service.ts:17-30 | a failed topic creation is ignored; the call succeeds exactly when the subscription does, and then the `events` topic is subscribed; nothing is sent |
| Processor.EventProcessor.EnsureTenantDatabase | src/modules/kafka-producer/services/event-processor.service.ts:74-81 | never fails; the new state is the provisioning of the old one, and a failed database creation skips the table |
| Processor.EventProcessor.Record | src/modules/kafka-producer/services/event-processor.service.ts:43-65 | the new state is the old one after provisioning, inserting the event's row and counting it; a failed insert skips the count |
| Processor.EventProcessor.ProcessEvent | src/modules/kafka-producer/services/event-processor.service.ts:32-72 | as written: the event's app id is looked up as an api key; with no match nothing changes, otherwise the event is recorded for the app found |
| Processor.EventProcessor.FindActiveByAppId | src/modules/kafka-producer/services/event-processor.service.ts:36-41 | the app comes back exactly when an ACTIVE app has that app id, and it is that app |
| Processor.EventProcessor.ProcessEventIntended | src/modules/kafka-producer/services/event-processor.service.ts:32-72 | as intended: the app is looked up by app id; with no match nothing changes, otherwise the event is recorded for that app |
| Processor.EventProcessor.HandleMessage | src/core/kafka/kafka.service.ts:180-193 | a decoded event is processed exactly as `processEvent` does; a missing or empty value is processed as the event `{}`, whose row goes to the tenant of the app `findOne` returns without a key condition, when that app is active; foreign text changes nothing |
| Processor.EventProcessor.SendEvent | src/modules/kafka-producer/services/event-processor.service.ts:83-85 | succeeds exactly when the service was connected or connects now and the send succeeds; then exactly one send of the event to the `events` topic is logged, otherwise nothing is; the connection flag afterwards is the old flag or a successful connect, and topics and subscriptions are unchanged |
| Processor.EventProcessor.SendBatchEvents | src/modules/kafka-producer/services/event-processor.service.ts:87-89 | succeeds exactly when the service was connected or connects now and the send succeeds; then exactly one send of the whole batch to the `events` topic is logged, otherwise nothing is; the connection flag afterwards is the old flag or a successful connect, and topics and subscriptions are unchanged |
| Processor.LookupByApiKeyMissesAppIds | src/modules/kafka-producer/services/event-processor.service.ts:37-41 | when keys are generated, looking up an event's app id as an api key never finds an app |
| Processor.LookupByAppIdFindsApp | src/modules/kafka-producer/services/event-processor.service.ts:36-41 | looking up by app id finds the active app the event belongs to |
| Kafka.MessageOf | src/core/kafka/kafka.service.ts:121-131 | the message is keyed by the event id and its headers carry app id, event name and timestamp |
| Kafka.BatchMessages | src/core/kafka/kafka.service.ts:147-155 | one message per event, in the order of the events, each keyed by its event's id |
| Kafka.Deliver | src/core/kafka/kafka.service.ts:183-186 | a missing or empty value is handed on as the empty object |
| Kafka.BatchRoundTrip | src/core/kafka/kafka.service.ts:147-186 | every message of a batch reaches the handler as the event it was built from, in batch order |
| Kafka.ConsumerGroupId | src/core/kafka/kafka.service.ts:65-67 | the group id is the client id followed by `-consumer-group` |
| Kafka.ConsumerGroupIdInjective | src/core/kafka/kafka.service.ts:65-67 | different client ids give different consumer groups |
| Kafka.KafkaService.constructor | src/core/kafka/kafka.service.ts:25-29 | a new service is not connected and has no topics, sends or subscriptions |
| Kafka.KafkaService.Connect | src/core/kafka/kafka.service.ts:72-100 | succeeds exactly when both producer and consumer connect; only then is the service marked connected; a failure is rethrown and nothing else changes |
| Kafka.KafkaService.Disconnect | src/core/kafka/kafka.service.ts:102-111 | the connected flag is cleared only when both sides disconnect; failures are swallowed |
| Kafka.KafkaService.EnsureConnected | src/core/kafka/kafka.service.ts:114-116 | a connected service stays connected without a new connection; otherwise it connects, and fails when that fails |
| Kafka.KafkaService.SendEvent | src/core/kafka/kafka.service.ts:113-139 | succeeds exactly when the service is connected (lazily if need be) and the send succeeds; then exactly one send with the event's message is logged, otherwise nothing is |
| Kafka.KafkaService.SendBatchEvents | src/core/kafka/kafka.service.ts:141-167 | as for one event, with one send holding one message per event in order |
| Kafka.KafkaService.SubscribeToTopic | src/core/kafka/kafka.service.ts:169-201 | succeeds exactly when the service is connected and the consumer accepts the subscription; only then is the topic added to the subscriptions |
| Kafka.KafkaService.CreateTopic | src/core/kafka/kafka.service.ts:203-224 | succeeds exactly when the admin client does; a new topic is created with the given settings, and an existing one keeps its settings |
| Bus.TopicNamesDistinct | src/modules/events/events/event-emitter.service.ts:5-9 | the three topic names are different |
| Bus.EventEmitter.constructor | src/modules/events/events/event-emitter.service.ts:25 | nothing is published yet |
| Bus.EventEmitter.EmitEventTracked | src/modules/events/events/event-emitter.service.ts:27-29 | exactly one entry is published: the event on `event.tracked` |
| Bus.EventEmitter.EmitBatchEventsTracked | src/modules/events/events/event-emitter.service.ts:31-33 | exactly one entry is published: the whole list on `batch.events.tracked` |
| Bus.EventEmitter.EmitDeviceLinked | src/modules/events/events/event-emitter.service.ts:35-37 | exactly one entry is published: the event on `device.linked` |
| Bus.Forwarded | src/modules/events/events/event-listener.service.ts:18-49 | every well-shaped entry asks for one send to the `events` topic: a single event as one message, a batch as one message per event |
| Bus.DeviceLinkedForwardedAsTracked | src/modules/events/events/event-listener.service.ts:40-49 | a device link is forwarded exactly as a tracked event is |
| Bus.EventListener.constructor | src/modules/events/events/event-listener.service.ts:16 | the listener forwards to the given processor |
| Bus.EventListener.HandleEventTracked | src/modules/events/events/event-listener.service.ts:18-27 | one send of the event is logged exactly when the service was or gets connected and the send succeeds; otherwise the failure is swallowed and nothing is logged; the connection flag afterwards is the old flag or a successful connect, and topics and subscriptions are unchanged |
| Bus.EventListener.HandleBatchEventsTracked | src/modules/events/events/event-listener.service.ts:29-38 | one send of the whole batch is logged exactly when the service was or gets connected and the send succeeds; otherwise nothing is; the connection flag afterwards is the old flag or a successful connect, and topics and subscriptions are unchanged |
| Bus.EventListener.HandleDeviceLinked | src/modules/events/events/event-listener.service.ts:40-49 | one send of the event is logged exactly when the service was or gets connected and the send succeeds; otherwise nothing is; the connection flag afterwards is the old flag or a successful connect, and topics and subscriptions are unchanged |
| Bus.EventListener.Deliver | src/modules/events/events/event-listener.service.ts:18-49 | delivering a published entry logs exactly the send its topic asks for when the service was or gets connected and the send succeeds, otherwise nothing, and never fails; the connection flag afterwards is the old flag or a successful connect, and topics and subscriptions are unchanged |
| Events.BuildEvent | src/modules/events/controllers/events.controller.ts:43-58 | the event gets the given id and the guard's app id; name, user, session, version and metadata come from the body; the timestamp defaults to now, the properties to `{}` and the platform to the app's; there is no device id |
| Events.Acknowledge | src/modules/events/controllers/events.controller.ts:63-69 | the acknowledgement reports success with the event id, name, user and the timestamp used |
| Events.AcknowledgementMatchesEvent | src/modules/events/controllers/events.controller.ts:44-69 | the acknowledgement names the event that was sent: same id, timestamp, name and user |
| Events.AppIdFromGuardOnly | src/modules/events/controllers/events.controller.ts:43-49 | whatever the body says, the event belongs to the authenticated app |
| Events.BuildBatch | src/modules/events/controllers/events.controller.ts:88-114 | one event and one acknowledgement per tracked event, in request order |
| Events.BatchAcknowledgementsInOrder | src/modules/events/controllers/events.controller.ts:90-119 | the i-th acknowledgement carries the id and timestamp of the i-th event and the key of the i-th message sent |
| Events.EventsController.constructor | src/modules/events/controllers/events.controller.ts:26 | the controller uses the given processor |
| Events.EventsController.TrackEvent | src/modules/events/controllers/events.controller.ts:39-70 | succeeds exactly when the service was connected or connects now and the send succeeds; then exactly one send of the built event is logged and its acknowledgement returned; a failed send is passed on and nothing is logged; the connection flag afterwards is the old flag or a successful connect, and topics and subscriptions are unchanged |
| Events.EventsController.TrackBatchEvents | src/modules/events/controllers/events.controller.ts:83-120 | succeeds exactly when the service was connected or connects now and the send succeeds; then exactly one send is appended to the earlier log, holding one message per tracked event in request order, and the acknowledgements follow the same order; a failed send is passed on and nothing is logged; the connection flag afterwards is the old flag or a successful connect, and topics and subscriptions are unchanged |
| ClickHouse.GetDatabaseNameFromAppId | src/core/clickhouse/clickhouse.service.ts:70-72 | the name is `tenant_` followed by the app id, and it passes the name check exactly when the app id has only letters, digits and underscores |
| ClickHouse.IsSafeName | src/core/clickhouse/clickhouse.service.ts:91 | a name that passes the check is non-empty and holds no dot, semicolon, quote, backquote, blank or dash, so it cannot leave the identifier it is spliced into |
| ClickHouse.TenantNameInjective | src/core/clickhouse/clickhouse.service.ts:70-72 | different app ids give different tenant databases |
| ClickHouse.EventsTableNullable | src/core/clickhouse/clickhouse.service.ts:203-216 | only `user_id` and `device_id` are nullable |
| ClickHouse.EventsTableDefaults | src/core/clickhouse/clickhouse.service.ts:205-215 | only `id` and `created_at` have server defaults |
| ClickHouse.EventsTableLayout | src/core/clickhouse/clickhouse.service.ts:217-219 | rows are partitioned by month of the timestamp and ordered by app, event name and timestamp |
| ClickHouse.QueryInDatabase | src/core/clickhouse/clickhouse.service.ts:57-68 | the statement starts with `USE <name>; ` |
| ClickHouse.QueryInDatabaseUnchecked | src/core/clickhouse/clickhouse.service.ts:60 | the database name reaches the server unchecked, even when it would fail the name check |
| ClickHouse.Store.constructor | src/core/clickhouse/clickhouse.service.ts:10-27 | a new store has no databases, no tables and no statements |
| ClickHouse.Store.TestConnection | src/core/clickhouse/clickhouse.service.ts:29-42 | one test query is sent; the result is true exactly when the call succeeds and the first row has `test` equal to 1, and a failure gives false |
| ClickHouse.Store.CreateDatabase | src/core/clickhouse/clickhouse.service.ts:88-103 | an unsafe name fails before any statement is sent; otherwise one `CREATE DATABASE IF NOT EXISTS` is sent and, when the server accepts it, the database exists; tables are untouched |
| ClickHouse.Store.CreateEventsTable | src/core/clickhouse/clickhouse.service.ts:194-232 | both names are checked before anything is sent, the database name first; then one `CREATE TABLE IF NOT EXISTS` is sent; it succeeds exactly when the server accepts it and the database exists; a new table is empty, and an existing one keeps its rows |
| ClickHouse.Store.TableExists | src/core/clickhouse/clickhouse.service.ts:105-133 | true exactly when both names are safe, the query succeeds and the table exists; it never throws |
| ClickHouse.Store.CountTables | src/core/clickhouse/clickhouse.service.ts:116-125 | the count is 1 for an existing table and 0 otherwise |
| ClickHouse.Store.DatabaseExists | src/core/clickhouse/clickhouse.service.ts:135-160 | true exactly when the name is safe, the query succeeds and the database exists; it never throws |
| ClickHouse.Store.GetTableInfo | src/core/clickhouse/clickhouse.service.ts:162-192 | a row comes back exactly when the table exists as `tableExists` sees it, and it gives the table's name, engine and row count, with the size in bytes and the metadata change time the server reports |
| ClickHouse.Store.ExecuteQuery | src/core/clickhouse/clickhouse.service.ts:44-55 | the query text is sent as given; the server's answer comes back on success, a failure is rethrown, and the catalog is untouched |
| ClickHouse.Store.ExecuteQueryInDatabase | src/core/clickhouse/clickhouse.service.ts:57-68 | the same, with the statement prefixed by `USE <name>; ` |
| ClickHouse.Store.Insert | src/core/clickhouse/clickhouse.service.ts:74-86 | the rows are appended, in order, to that table alone; a failed call or a missing table inserts nothing |
| Analytics.TenantFilter | src/modules/analytics/repositories/analytics.repository.ts:345 | the required filter is `app_id = '` followed by the app id and a closing quote |
| Analytics.CheckCustomQuery | src/modules/analytics/repositories/analytics.repository.ts:342-359 | a custom query fails with the missing-filter error exactly when its lower-cased text lacks the tenant filter, then with the not-SELECT error exactly when its trimmed lower-cased text does not start with `select`, then with the keyword error exactly when that text contains a forbidden keyword; it passes, unchanged, exactly when none of these hold |
| Analytics.UpperCaseAppIdNeverPasses | src/modules/analytics/repositories/analytics.repository.ts:345 | the app id is not lower-cased, so an app id with an upper-case letter makes every custom query fail the tenant check |
| Analytics.CreatedAtRefused | src/modules/analytics/repositories/analytics.repository.ts:350-358 | the keyword check matches inside identifiers: a SELECT that mentions `created_at` is refused as containing `create` |
| Analytics.HasForbiddenKeyword | src/modules/analytics/repositories/analytics.repository.ts:356-357 | a text containing `drop`, `delete` or `truncate` anywhere, inside an identifier too, has a forbidden keyword; a text shorter than four characters never has one |
| Analytics.ConditionText | src/modules/analytics/repositories/analytics.repository.ts:32-58 | an absent or empty filter value adds no condition |
| Analytics.AppendCondition | src/modules/analytics/repositories/analytics.repository.ts:32-58 | one `if (value) query += ...` step appends exactly the condition text to the query |
| Analytics.BuildEventsQuery | src/modules/analytics/repositories/analytics.repository.ts:13-67 | the appended query equals the `getEvents` query text of the filter |
| Analytics.WhereExtendsHead | src/modules/analytics/repositories/analytics.repository.ts:13-58 | the optional conditions only append to the scoped `SELECT ... WHERE app_id = '<appId>'` head |
| Analytics.WhereDependsOnTexts | src/modules/analytics/repositories/analytics.repository.ts:32-58 | two filters whose values give the same condition texts give the same WHERE clause |
| Analytics.WhereContainsCondition | src/modules/analytics/repositories/analytics.repository.ts:32-58 | every condition appended stays in the text after the later ones |
| Analytics.EventsQueryFilters | src/modules/analytics/repositories/analytics.repository.ts:32-58 | each non-empty filter value appears in the query as `<column> <op> '<value>'` |
| Analytics.EventsQueryShape | src/modules/analytics/repositories/analytics.repository.ts:13-60 | every events query starts with the select list scoped to its app and contains `ORDER BY timestamp DESC` |
| Analytics.EmptyFilterValueIgnored | src/modules/analytics/repositories/analytics.repository.ts:40-54 | an empty user id, event name or platform gives the same query as an absent one |
| Analytics.ZeroLimitOmitsPaging | src/modules/analytics/repositories/analytics.repository.ts:62-67 | a zero or absent limit leaves out both `LIMIT` and `OFFSET`, whatever the offset |
| Analytics.PagingWithLimit | src/modules/analytics/repositories/analytics.repository.ts:62-67 | with a non-zero limit the query is the unpaged one plus `LIMIT <limit>`, plus `OFFSET <offset>` only when the offset is non-zero |
| Analytics.LimitClause | src/modules/analytics/repositories/analytics.repository.ts:62-63 | the limit clause is empty exactly when the limit is absent or 0; otherwise it begins with ` LIMIT ` |
| Analytics.OffsetClause | src/modules/analytics/repositories/analytics.repository.ts:64-66 | an offset clause is written exactly when a limit clause is and the offset is present and non-zero; it begins with ` OFFSET ` |
| Analytics.PagingClausesReadBack | src/modules/analytics/repositories/analytics.repository.ts:62-66 | the numbers written in the two clauses read back as the limit and the offset requested |
| Analytics.DateFilter | src/modules/analytics/repositories/analytics.repository.ts:95-97 | the date range is empty unless both dates are given; then it bounds the timestamp from below and above, both ends included |
| Analytics.MetricsQueries | src/modules/analytics/repositories/analytics.repository.ts:99-182 | the metrics report sends seven queries |
| Analytics.ScopedQueryHasScope | src/modules/analytics/repositories/analytics.repository.ts:100-164 | every templated query contains its scope |
| Analytics.NarrowedScopes | src/modules/analytics/repositories/analytics.repository.ts:221-286 | the user and event scopes start with the app scope |
| Analytics.MetricsQueriesScoped | src/modules/analytics/repositories/analytics.repository.ts:94-164 | each of the seven metrics queries contains `WHERE app_id = '<appId>'` |
| Analytics.ReportQueriesScoped | src/modules/analytics/repositories/analytics.repository.ts:221-320 | the user query, its event breakdown, the event query and its per-hour query all contain `WHERE app_id = '<appId>'` |
| Analytics.FirstOrZero | src/modules/analytics/repositories/analytics.repository.ts:193-195 | a total is the first row's value when that is truthy and 0 otherwise, in particular 0 with no rows |
| Analytics.BreakdownKeys | src/modules/analytics/repositories/analytics.repository.ts:196-207 | a breakdown has a key for exactly the keys the rows give |
| Analytics.BreakdownLastRowWins | src/modules/analytics/repositories/analytics.repository.ts:196-207 | a key holds the count of the last row that gives it |
| Analytics.PropertyKey | src/modules/analytics/repositories/analytics.repository.ts:196-206 | the key of a number reads back as that number; a string is its own key |
| Analytics.Breakdown | src/modules/analytics/repositories/analytics.repository.ts:196-207 | the `reduce` loop builds the breakdown of the rows |
| Analytics.MetricsOf | src/modules/analytics/repositories/analytics.repository.ts:184-211 | the totals come from the first rows, each breakdown is keyed by its own column over its own rows, and the series pairs each row's date and count in order |
| Analytics.NoRowsGiveZeroMetrics | src/modules/analytics/repositories/analytics.repository.ts:184-211 | with no rows anywhere the report has zero totals, an empty breakdown and an empty series |
| Analytics.UserAnalyticsOf | src/modules/analytics/repositories/analytics.repository.ts:242-277 | the report fails with the no-events error exactly when the grouped query has no row; otherwise it carries the first row's user, device, total, session count, platform and version, and the event breakdown |
| Analytics.EventAnalyticsOf | src/modules/analytics/repositories/analytics.repository.ts:303-335 | the report fails with the no-events error exactly when the grouped query has no row; otherwise it carries the first row's name, total, users and devices, each hour row's hour and count in order, and a retention of 0 |
| Analytics.AnalyticsRepository.constructor | src/modules/analytics/repositories/analytics.repository.ts:9 | the repository uses the store it is given |
| Analytics.AnalyticsRepository.GetEvents | src/modules/analytics/repositories/analytics.repository.ts:11-90 | exactly the events query is sent; a server failure is passed on, otherwise the answer's rows are returned |
| Analytics.AnalyticsRepository.GetAnalyticsMetrics | src/modules/analytics/repositories/analytics.repository.ts:92-217 | the seven queries are sent in order; any failure fails the report, otherwise the report is built from the seven answers |
| Analytics.AnalyticsRepository.GetUserAnalytics | src/modules/analytics/repositories/analytics.repository.ts:219-282 | the breakdown query is sent only when the grouped query has a row; failures and the no-row case give their errors |
| Analytics.AnalyticsRepository.GetEventAnalytics | src/modules/analytics/repositories/analytics.repository.ts:284-340 | the per-hour query is sent only when the grouped query has a row; a non-array per-hour answer fails as `.map` does, with the `null`/`undefined` read error or the "is not a function" error |
| Analytics.AnalyticsRepository.ExecuteCustomQuery | src/modules/analytics/repositories/analytics.repository.ts:342-368 | the store sees the query, unchanged, only when all three checks pass; a refused query leaves the store untouched |
| Reports.TotalFresh | src/modules/analytics/services/analytics.service.ts:211-217 | setting a counter key the sum does not range over leaves the sum unchanged |
| Reports.TotalBump | src/modules/analytics/services/analytics.service.ts:211-217 | adding one to the count of a listed key adds one to the sum |
| Reports.TotalAppendFresh | src/modules/analytics/services/analytics.service.ts:211-217 | a new key at the end adds its count to the sum |
| Reports.Bump | src/modules/analytics/services/analytics.service.ts:211 | `(counts[key] \|\| 0) + 1` keeps the counter's keys distinct and its key list and count map in step |
| Reports.TallyOf | src/modules/analytics/services/analytics.service.ts:205-218 | the counter built from a list of keys is well formed |
| Reports.TallyOfCount | src/modules/analytics/services/analytics.service.ts:205-218 | a key has a count exactly when it occurs in the list, and the count is its number of occurrences |
| Reports.BumpTotal | src/modules/analytics/services/analytics.service.ts:211-217 | counting one more key adds one to the sum of the counts |
| Reports.TallyOfTotal | src/modules/analytics/services/analytics.service.ts:205-218 | the counts of a counter sum to the number of keys counted |
| Reports.LengthOf | src/modules/analytics/services/analytics.service.ts:74 | `data.length` is the element count of an array and the character count of a string, and fails exactly on `null` and `undefined`, each with its own `TypeError` text |
| Reports.ContentKeyChoice | src/modules/analytics/services/analytics.service.ts:111 | the content key is the episode id when truthy, else the content id when truthy, else `unknown`, and is never falsy |
| Reports.AddToSet | src/modules/analytics/services/analytics.service.ts:126-128 | adding to a set keeps its members, adds the value and keeps it free of repeats |
| Reports.NewGroup | src/modules/analytics/services/analytics.service.ts:113-122 | a new entry carries the event's key and title, no opens and empty sets |
| Reports.Record | src/modules/analytics/services/analytics.service.ts:124-128 | an event adds one open, at most its own user, and keeps the platform and version lists free of repeats |
| Reports.Open | src/modules/analytics/services/analytics.service.ts:110-129 | one event keeps the content map well formed |
| Reports.Grouped | src/modules/analytics/services/analytics.service.ts:108-129 | the content map after all events is well formed |
| Reports.UpdateOpens | src/modules/analytics/services/analytics.service.ts:124-125 | updating one entry with one more open changes no other entry's opens |
| Reports.OpenOpens | src/modules/analytics/services/analytics.service.ts:110-129 | one event adds one open to its own key's entry and none elsewhere |
| Reports.OpenTotal | src/modules/analytics/services/analytics.service.ts:110-129 | one event adds one to the sum of the opens |
| Reports.OpensCountEvents | src/modules/analytics/services/analytics.service.ts:108-129 | the opens of all entries sum to the number of events |
| Reports.UsersAtMostOpens | src/modules/analytics/services/analytics.service.ts:108-129 | no entry has more distinct users than opens, and its platforms and versions have no repeats |
| Reports.OpenKeepsTitles | src/modules/analytics/services/analytics.service.ts:113-122 | an event keeps the id and title of an existing entry and creates a missing one with its own key and title |
| Reports.FirstWithKeyExtends | src/modules/analytics/services/analytics.service.ts:110-129 | the first event with a key stays the first as events follow |
| Reports.FirstWithKeyLast | src/modules/analytics/services/analytics.service.ts:110-129 | the last event is the first with its key when no earlier event created that key's entry |
| Reports.FirstTitleWins | src/modules/analytics/services/analytics.service.ts:113-122 | an entry's id is its key and its title is the one of the first event with that key |
| Reports.AbsentKeyUnseen | src/modules/analytics/services/analytics.service.ts:113 | a key with no entry is the key of no event seen |
| Reports.KeyOfEarlierRowPresent | src/modules/analytics/services/analytics.service.ts:113-121 | the key of every event seen has an entry |
| Reports.Summary | src/modules/analytics/services/analytics.service.ts:132-139 | a listed entry carries the entry's id, title, opens, number of users, platforms and versions |
| Reports.Summaries | src/modules/analytics/services/analytics.service.ts:132-139 | the entries are listed one per key in insertion order |
| Reports.SummariesTotal | src/modules/analytics/services/analytics.service.ts:132-139 | the listed opens add up to the sum of the entries' opens |
| Reports.ContentPerformanceOf | src/modules/analytics/services/analytics.service.ts:108-141 | the `forEach`, `map` and `sort` compute the content report of the events |
| Reports.ContentReportFacts | src/modules/analytics/services/analytics.service.ts:108-141 | the content report is sorted by opens, most first, has one entry per content key, its opens sum to the number of events, and no entry has more users than opens |
| Reports.KeysOf | src/modules/analytics/services/analytics.service.ts:206-208 | one counter key per event: the property, or `unknown` when it is falsy |
| Reports.Entries | src/modules/analytics/services/analytics.service.ts:221 | `Object.entries` lists each key with its count in insertion order |
| Reports.TopErrors | src/modules/analytics/services/analytics.service.ts:221-225 | the top errors are the first ten entries, or all when fewer, sorted by count, most first, each one an entry of the counter |
| Reports.TopErrorsAreLargest | src/modules/analytics/services/analytics.service.ts:221-225 | no entry left out of the top ten counts more than one kept in |
| Reports.TallyStep | src/modules/analytics/services/analytics.service.ts:205-218 | counting the next event bumps its key |
| Reports.ErrorAnalyticsOf | src/modules/analytics/services/analytics.service.ts:195-227 | the `forEach` and the top-ten step compute the error report of the events |
| Reports.ErrorCountsSumToTotal | src/modules/analytics/services/analytics.service.ts:195-218 | the error-type, endpoint and user-impact counts each sum to the number of errors |
| Reports.MissingTypeCountsAsUnknown | src/modules/analytics/services/analytics.service.ts:206 | an event without an `error_type` is counted under `unknown` |
| Reports.UserSteps | src/modules/analytics/services/analytics.service.ts:259-264 | a user's steps are at most as many as the events |
| Reports.FunnelOfUser | src/modules/analytics/services/analytics.service.ts:248-265 | events without a truthy user id create no funnel; a user has a funnel exactly when some event carries their id, and it lists their events in order |
| Reports.UserStepsFound | src/modules/analytics/services/analytics.service.ts:259-264 | a user has steps exactly when some event carries their id |
| Reports.ConversionFunnelOf | src/modules/analytics/services/analytics.service.ts:246-274 | the funnel metrics report the number of distinct users with a truthy id, no steps and no rates |
| Reports.ReportFilter | src/modules/analytics/services/analytics.service.ts:100-105 | a report asks for its app and dates, and for some reports an event name, with no other filter, limit or offset |
| Reports.AnalyticsService.constructor | src/modules/analytics/services/analytics.service.ts:15 | the service uses the repository it is given |
| Reports.AnalyticsService.ExecuteCustomQuery | src/modules/analytics/services/analytics.service.ts:64-82 | a refused query gives the repository's error; otherwise the result carries the data, its length and the query, or the error of `.length` |
| Reports.AnalyticsService.GetContentPerformance | src/modules/analytics/services/analytics.service.ts:95-146 | exactly the `EPISODE_OPENED` events query is sent, and on success the content report of its rows is returned |
| Reports.AnalyticsService.GetErrorAnalytics | src/modules/analytics/services/analytics.service.ts:183-232 | exactly the `API_ERROR` events query is sent, and on success the error report of its rows is returned |
| Reports.AnalyticsService.GetConversionFunnel | src/modules/analytics/services/analytics.service.ts:234-279 | exactly the unfiltered events query is sent, and on success the funnel metrics of its rows are returned |
| Reports.ReportsFilterByEventName | src/modules/analytics/services/analytics.service.ts:100-105 | the content and error reports' queries carry their event-name condition |
| PagedRepository.Wildcard | src/common/repository/paginated.repository.ts:41 | the pattern is the search text between two `%` |
| PagedRepository.PhoneVariantForms | src/common/repository/paginated.repository.ts:44-60 | the country-code variant always starts with `%255`; a search starting with 0 drops the zero in the other variant, any other search gets `%0` there |
| PagedRepository.LocalAndInternationalMeet | src/common/repository/paginated.repository.ts:46-54 | `0<rest>` and `255<rest>` search the same international pattern |
| PagedRepository.StandardFormSearched | src/common/repository/paginated.repository.ts:44-60 | for a digit string with a local, international or bare mobile prefix, the country-code pattern wraps the number's standard form |
| PagedRepository.SearchParams | src/common/repository/paginated.repository.ts:41-60 | the generic pattern is always bound; the two phone patterns are bound exactly when the phone number is searchable |
| PagedRepository.FieldConditionSearches | src/common/repository/paginated.repository.ts:28-38 | every field's condition compares the lower-cased field with the lower-cased search pattern |
| PagedRepository.FieldConditions | src/common/repository/paginated.repository.ts:28-38 | one condition per searchable field, in order |
| PagedRepository.JoinContainsParts | src/common/repository/paginated.repository.ts:62 | each part occurs in the `join(' OR ')` text |
| PagedRepository.SearchClause | src/common/repository/paginated.repository.ts:27-63 | a search clause is added exactly when the search is non-empty and some field is searchable, with the search parameters |
| PagedRepository.SearchClauseCoversFields | src/common/repository/paginated.repository.ts:27-63 | the search clause compares every searchable field with the pattern |
| PagedRepository.OrderOf | src/common/repository/paginated.repository.ts:72 | the order is `ASC` exactly for an ascending request and `DESC` otherwise |
| PagedRepository.SortOf | src/common/repository/paginated.repository.ts:71-73 | the sort column is the requested field, else the default one, prefixed by `entity.`; the direction is ascending exactly when asked |
| PagedRepository.WhereBindsLeaves | src/common/repository/paginated.repository.ts:84-100 | one condition per present non-object leaf at any depth, each binding its value under the parameter name its text refers to |
| PagedRepository.WhereConcat | src/common/repository/paginated.repository.ts:85 | keys are visited in order: the conditions of an object are those of its first keys followed by those of the rest |
| PagedRepository.WherePrefix | src/common/repository/paginated.repository.ts:85 | the conditions of the first keys are those of the object cut to those keys |
| PagedRepository.QueryBuilder.constructor | src/common/repository/paginated.repository.ts:17 | a new query builder has no joins, conditions, order or page |
| PagedRepository.QueryBuilder.LeftJoinAndSelect | src/common/repository/paginated.repository.ts:22 | a join is appended and nothing else changes |
| PagedRepository.QueryBuilder.AndWhere | src/common/repository/paginated.repository.ts:62 | a condition is appended and nothing else changes |
| PagedRepository.QueryBuilder.OrderBy | src/common/repository/paginated.repository.ts:73 | the ordering is replaced and nothing else changes |
| PagedRepository.QueryBuilder.Page | src/common/repository/paginated.repository.ts:76 | skip and take are set and nothing else changes |
| PagedRepository.Joins | src/common/repository/paginated.repository.ts:20-24 | each relation is joined as `entity.<relation>` under its own name, in order |
| PagedRepository.PaginatedPlanFacts | src/common/repository/paginated.repository.ts:9-82 | the search clause leads the conditions exactly when the search is non-empty and a field is searchable, the filter conditions follow, the direction is ascending exactly when asked, and the page is the options' skip and limit |
| PagedRepository.PaginatedRepository.constructor | src/common/repository/paginated.repository.ts:6-7 | the repository has the searchable fields and default sort field it is given |
| PagedRepository.PaginatedRepository.BuildWhereConditions | src/common/repository/paginated.repository.ts:84-100 | one `andWhere` per leaf of the where object, recursing into nested objects under their key |
| PagedRepository.PaginatedRepository.BuildSearchQuery | src/common/repository/paginated.repository.ts:212-252 | the search clause is added when there is one, and nothing happens otherwise |
| PagedRepository.PaginatedRepository.BuildSortQuery | src/common/repository/paginated.repository.ts:254-258 | the ordering becomes the requested or default field in the requested direction |
| PagedRepository.PaginatedRepository.JoinRelations | src/common/repository/paginated.repository.ts:20-24 | every relation is joined, in order |
| PagedRepository.PaginatedRepository.AddEqualities | src/common/repository/paginated.repository.ts:134-141 | one equality per present key of the given filter, in order |
| PagedRepository.PaginatedRepository.FindPaginated | src/common/repository/paginated.repository.ts:9-82 | the builder receives the joins, the search clause, the filter conditions, the sort and the page in that order, and the response wraps the rows and count with the page and limit |
| PagedRepository.PaginatedRepository.PhoneSearch | src/common/repository/paginated.repository.ts:122-178 | the builder receives the joins, the filter equalities, the search clause, the sort and the page |
| PagedRepository.PaginatedRepository.FindPaginatedWithOptions | src/common/repository/paginated.repository.ts:102-210 | a phone search goes through the query builder and any other request through the find options, and the response wraps the rows and count |
| PagedRepository.AssignFacts | src/common/repository/paginated.repository.ts:195-198 | after the spread the assigned key reads the new value, every other key reads what it read, and the key count grows only for a new key |
| PagedRepository.FinalOptions | src/common/repository/paginated.repository.ts:109-116 | the given filter and relations are kept, skip and take come from the options, and the given order wins over the requested one |
| PagedRepository.FirstFieldOnly | src/common/repository/paginated.repository.ts:183-203 | without a phone field the search filters on the first searchable field alone, overriding that key of the given filter and keeping the others |
| PagedRepository.PhoneSearchBuildsQuery | src/common/repository/paginated.repository.ts:122-182 | a phone search uses the query builder, ends its conditions with the three-pattern search clause, and sorts as requested whatever order the options give |
| Sorting.InsertPos | src/modules/analytics/services/analytics.service.ts:141 | the insertion point comes after every element whose key is at least the new one's and before the first smaller one |
| Sorting.InsertDesc | src/modules/analytics/services/analytics.service.ts:141 | inserting into a list sorted by descending key keeps it sorted and adds exactly the new element |
| Sorting.InsertAtSorted | src/modules/analytics/services/analytics.service.ts:141 | an element placed at its insertion point keeps the list sorted |
| Sorting.SortDesc | src/modules/analytics/services/analytics.service.ts:141 | the result is sorted by descending key and a permutation of the input |
| Sorting.SortDescStable | src/modules/analytics/services/analytics.service.ts:141 | the sort is stable: the elements with any one key come out in their input order |
| Sorting.InsertDescStable | src/modules/analytics/services/analytics.service.ts:141 | one insertion step puts the new element after every element with the same key |
| Sorting.SortDescSameElements | src/modules/analytics/services/analytics.service.ts:223 | sorting keeps exactly the elements it was given |
| Sorting.SumByConcat | src/modules/analytics/services/analytics.service.ts:141 | the key sum of a concatenation is the sum of the parts' key sums |
| Sorting.SumByPermutation | src/modules/analytics/services/analytics.service.ts:141 | reordering, and so sorting, does not change the key sum |
| Text.OrElse | src/common/repository/paginated.repository.ts:71 | `s \|\| fallback` is the string when it is non-empty and the fallback otherwise |
| Text.SubstringFrom | src/common/utils/phone.utils.ts:24 | `substring(from)` is the rest of the string from that index, or empty past the end |
| Text.Rest | src/common/repository/paginated.repository.ts:47 | `substring(1)` drops the first character |
| Text.Lower | src/modules/analytics/repositories/analytics.repository.ts:345 | `toLowerCase` keeps the length and lowers each character |
| Text.LowerNeverContainsUpper | src/modules/analytics/repositories/analytics.repository.ts:345 | a lower-cased text never contains a string with an upper-case letter |
| Text.LowerIdempotent | src/modules/analytics/repositories/analytics.repository.ts:350 | lowering twice is lowering once |
| Text.Trim | src/modules/analytics/repositories/analytics.repository.ts:350 | `trim` removes only leading and trailing whitespace and leaves neither |
| Text.TrimStart | src/common/interceptors/pagination.interceptor.ts:14-16 | `parseInt` skips a prefix made only of whitespace, and what remains does not start with whitespace |
| Text.TrimEnd | src/modules/analytics/repositories/analytics.repository.ts:350 | the end of `trim` removes a suffix made only of whitespace, and what remains does not end with whitespace |
| Text.TrimUnchanged | src/modules/analytics/repositories/analytics.repository.ts:350 | a string without leading or trailing whitespace trims to itself |
| Text.TrimAllSpace | src/modules/auth/entities/user.entity.ts:68 | an all-whitespace string trims to the empty string |
| Text.DigitsOnly | src/common/utils/phone.utils.ts:20 | removing non-digits leaves only digits, no more characters than before, and a digit string unchanged |
| Text.NatToString | src/modules/analytics/repositories/analytics.repository.ts:63 | the decimal text of a number is non-empty digits with no leading zero |
| Text.IntToString | src/modules/analytics/repositories/analytics.repository.ts:63 | negative numbers get a leading minus before the text of their magnitude |
| Text.DigitsValueOfNatToString | src/modules/analytics/repositories/analytics.repository.ts:63 | reading back the decimal text of a number gives the number |
| Text.ParseIntOfNatToString | src/common/interceptors/pagination.interceptor.ts:14-16 | `parseInt` reads back the decimal text of every natural number |
| Text.ParseIntOfDigits | src/common/interceptors/pagination.interceptor.ts:14-16 | a non-empty digit string parses to its value |
| Text.ParseIntNaN | src/common/interceptors/pagination.interceptor.ts:14-16 | text whose first non-blank character is neither a sign nor a digit is `NaN` |
| Text.ParseIntOfIntToString | src/common/interceptors/pagination.interceptor.ts:14-16 | `parseInt` reads back the decimal text of every integer, negative ones included |

## Left out

- Network and database clients: Kafka, ClickHouse and TypeORM are not called. Their effects are state: the store catalog and its statement log, the broker log, and the apps, users and OTP tables. Their outcomes are parameters: an answer and a success flag. The calls on the apps, users and OTP tables have no failure flag: a database error there is not modelled.
- SQL evaluation: the store records the text of each query sent by a method, and the answer to such a query is a parameter. The existence checks, `CountTables` and `GetTableInfo` are functions that read the catalog and record nothing. The model does not evaluate SQL, so `USE <db>; ...` and the report queries are not run against the stored rows.
- Concurrency: the `Promise.all` of `getAnalyticsMetrics` is modelled as the seven queries sent in order. The Kafka consumer loop handles one message per call.
- Clocks and randomness: the current instant, UUIDs, random hex and the OTP draw are inputs. Dates are ISO text or integers. `setMinutes` is modelled on an integer instant, not on local time.
- Hashing and tokens: bcrypt is an abstract hash function with a matching predicate. JWT signing, and with it `login` and `refreshToken` of the auth service, is not part of this model.
- JSON: the serialised event is an opaque value that the consumer reads back. Other producers' text is delivered as foreign text and not parsed.
- Processor.EventProcessor.HandleMessage: foreign text is left unprocessed, whereas the source parses it and processes any JSON object it finds. For the empty object, a text column left undefined is written as the empty text, and the lookup `findOne` makes without a key condition is the parameter `emptyLookup`.
- ClickHouse.Store.GetTableInfo: the size in bytes and the metadata change time are parameters. The catalog does not hold them.
- UserEntity.BcryptInput: counts characters, not UTF-8 bytes. It agrees with bcrypt's 72-byte limit for ASCII passwords only. Salting is not modelled: the hash is a function of the password.
- The app entity's `settings` and `metadata` JSON columns and its `updatedAt` column are not modelled. No modelled operation reads them.
- `getTopicMetadata` and `onModuleDestroy` of the Kafka service, and `getClient` and `onModuleDestroy` of the ClickHouse service, only pass through to the client libraries.
- `getRealTimeMetrics` of the analytics repository and service: its queries depend on the clock.
- `getUserEngagement` of the analytics service: it divides numbers into floating-point ratios.
- `getEvents`, `getAnalyticsMetrics`, `getUserAnalytics` and `getEventAnalytics` of the analytics service only log and delegate, so the repository methods model them.
- `executionTime` of the custom-query result: it is a clock difference.
- Logging: every logger call is left out.
- The users repository's `updateLastLogin`, `verifyEmail` and `findWithApps` are not used by the modelled services.
- `src/modules/auth/entities/password-reset-otp.entity.ts` is not part of this model. The OTP row's columns are taken from the repository's use of them.
- `validateProjectKey`, which the project-key guard calls, is not defined by the auth service. It is a parameter of the guard.
- Analytics.AnalyticsRepository.GetEvents: returns the answer's rows as they are. The field-by-field copy and the two `new Date(...)` conversions of the source's `map` are not modelled.
- Analytics.UserAnalyticsOf: does not carry `firstSeen` and `lastSeen`, which are `Date` objects built from the row.
- Analytics.EventAnalyticsOf: does not carry `averageProperties`, which is always the empty object.
- Text.Lower: lowers ASCII letters only, and leaves every other character unchanged. JavaScript's `toLowerCase` uses the full Unicode case mapping.
- Values.JsNumber: arrays and objects give `NaN`. JavaScript reads an array of at most one element through its text.
- `parseInt` and `Number` read decimal digits only. Hexadecimal prefixes and fractions are not modelled.
- Values: JavaScript numbers are unbounded integers here. Fractions, infinities and the 64-bit limits of ClickHouse counts are not modelled; `NaN` is its own value.
- Values: object keys keep insertion order. JavaScript lists integer-like keys first, and `Object.prototype` keys are not modelled.
- Request headers, query parameters and bodies hold strings only. Array-valued headers are not modelled.
- TypeORM details: relations are a list of names, not an object. An array-valued `where` is not modelled. Date values inside a `where` are plain values. `Like(...)` is bound as its pattern.
- Apps.ApplyPatch: a patch can set the name, description, platform, status and api key, and the contract proves that every other column keeps its value. `updateApp` accepts any `Partial<App>`, so the source could also overwrite bundle id, URLs, settings, metadata, ids, owner and counter; the model does not let a patch change these.
- Reports.AddToSet, Reports.Funnels and Reports.Grouped: JavaScript `Set` and `Map` compare object keys by reference (SameValueZero). The model compares values by structure, so two equal but distinct object values of `user_id`, `platform`, `version` or the content key count once here and twice in the source. Primitive values, which the event properties normally hold, behave alike.
- Events.BuildBatch: `BatchTrackEventsDto.events` carries no validation decorators (src/modules/events/dto/event.dto.ts:68-73), so the source does not validate the nested events and passes malformed ones on. The model takes every batch element as a well-formed `TrackEvent`.

## Findings

| source | as written | input that shows it | evidently intended | confidence | as-written member | corrected member |
|---|---|---|---|---|---|---|
| src/modules/kafka-producer/services/event-processor.service.ts:37-41 | `processEvent` looks the app up with `validateApiKey(event.appId)`, matching the event's app id against api keys | any event whose app id is a generated `app_…` id, while every api key is a generated `eh_…` key: no app is found, so the event is dropped without a row or a count | look the app up by its app id, so the event is stored in its tenant's table and counted | not executed | Processor.LookupByApiKeyMissesAppIds, Processor.EventProcessor.ProcessEvent | Processor.EventProcessor.ProcessEventIntended, Processor.LookupByAppIdFindsApp |
