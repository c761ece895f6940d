# Request authentication and access control of a small Go user service

This project models the security core of a Gin/GORM user-management service
in Dafny and proves what it promises. A request carries
`Authorization: Bearer <token>`. The authentication middleware decodes the
token into a caller identity and stores it in the request context. The admin
gate lets only ADMIN callers through. The user handlers apply an ownership
rule (an admin may act on anyone, a user only on themself) and further rules
on what an update may change. The login handler checks a password, mints a
token and records the attempt in a login-history sink. The configuration
loader and the blank-string helpers are modelled as well.

Modules, one per Go file, plus the pieces of the Go standard library they use:

- `Wrappers`: Option and Result.
- `GoStrings`: Go's `strings.TrimSpace`, `HasPrefix`, `TrimPrefix`, `Split`, `Join` and `Cut`.
- `GoStrconv`: `strconv.ParseInt(s, 10, 64)` and `%d`, with `Int64` as a subset type.
- `Models`: `internal/models/user.go` and `login.go`.
- `Http`: status codes and the JSON bodies the handlers write.
- `StringUtils`: `pkg/utils/string_utils.go`.
- `Config`: `internal/config/config.go`. The environment is a `map<string, string>` parameter.
- `Middleware`: `internal/middleware/auth.go`. The Gin context is the class
  `Context`, holding the header, the key/value map, the responses written so far
  and the abort flag.
- `Repository`: the user store and the login-history sink, reduced to a class
  holding `map<Int64, User>` and an append-only sequence. The set `failing`
  names the store operations that the database fails with an error other than
  "not found".
- `UserApi`: `internal/api/user_handlers.go`.
- `AuthApi`: `internal/api/auth_handlers.go`.
- `Server`: the route table of `cmd/server/main.go`. For each route it gives
  the middleware chain and what running that chain decides.

Opaque collaborators are parameters:
- the bcrypt comparison is `verify(hash, password)`;
- the e-mail format check is `isEmail`;
- the clock reading is `now`;
- the client address and user agent are strings taken from the request.

JSON binding is given as `Result<Request, string>`: either the decoded
request, which satisfies its binding tags, or the binder's error text.

Three behaviours of the code are worth stating plainly, since a reader might
expect otherwise:
- `RequireAdmin` answers 401, not 500, when no identity is stored.
- A `user-token-` suffix may carry a sign, since `ParseInt` accepts `+5` and `-5`.
- A minted admin token always decodes to id 1. So minting round-trips only for
  non-admins and for the admin whose id is 1.

## Model

| member | source | states |
|---|---|---|
| `GoStrings.TrimLeftSpace` | pkg/utils/string_utils.go:7 | the result is the suffix of the input starting at its first non-space; everything dropped is white space |
| `GoStrings.TrimRightSpace` | pkg/utils/string_utils.go:7 | the result is the prefix of the input ending at its last non-space; everything dropped is white space |
| `GoStrings.TrimSpace` | pkg/utils/string_utils.go:7 | the result is the input with its leading and trailing white space removed: only white space surrounds it in the input, and it neither starts nor ends with white space |
| `GoStrings.TrimSpaceEmptyIffAllSpace` | pkg/utils/string_utils.go:7 | `TrimSpace(s)` is empty exactly when every character of `s` is Go white space |
| `StringUtils.IsEmpty` | pkg/utils/string_utils.go:6-8 | true iff every character is white space, the empty string included |
| `StringUtils.IsNotEmpty` | pkg/utils/string_utils.go:11-13 | true iff some character is not white space, the exact negation of `IsEmpty` |
| `StringUtils.DefaultIfEmpty` | pkg/utils/string_utils.go:16-21 | a blank input gives the default; any other input comes back unchanged and untrimmed |
| `StringUtils.DefaultIfEmptyIdempotent` | pkg/utils/string_utils.go:16-21 | applying the default twice equals applying it once |
| `StringUtils.DefaultIfEmptyKeepsPadding` | pkg/utils/string_utils_test.go:26-29 | `"  hello  "` is not blank and is returned with its padding; `""` and `"   "` are blank |
| `Config.GetEnv` | internal/config/config.go:42-47 | the variable's value when it is set and non-empty, otherwise the default (`Reads`) |
| `Config.EmptyVariableIsUnset` | internal/config/config.go:43 | a variable set to `""` reads the same as an unset one |
| `GoStrings.Split` | internal/config/config.go:55 | `strings.Split` never returns an empty list |
| `GoStrings.JoinSplit` | internal/config/config.go:55 | joining the pieces of a split with the separator gives back the input |
| `GoStrings.SplitPartsHaveNoSep` | internal/config/config.go:55 | no piece of a split contains the separator |
| `GoStrings.SplitCount` | internal/config/config.go:55 | a split has one piece more than the input has separators, empty pieces kept |
| `GoStrings.SplitWithoutSep` | internal/config/config.go:51-55 | a string without the separator splits into itself alone |
| `GoStrings.SplitAtFirstSep` | internal/middleware/auth.go:27 | splitting `a + sep + b` with no separator in `a` gives `a` followed by the pieces of `b` |
| `GoStrings.SplitJoin` | internal/middleware/auth.go:27 | pieces without the separator are recovered by splitting their join |
| `Config.GetTrustedProxies` | internal/config/config.go:50-56 | the list is never empty (the `[]string{}` branch is dead), rejoins with commas to `TRUSTED_PROXIES` when it is set and non-empty and to `192.168.1.2` otherwise, and no entry holds a comma |
| `Config.TrustedProxiesSplit` | internal/config/config.go:50-56 | the list has one entry more than the variable's value has commas, empty entries included |
| `Config.DefaultTrustedProxyList` | internal/config/config.go:51-54 | with `TRUSTED_PROXIES` unset or empty the list is `["192.168.1.2"]` |
| `Config.NewConfig` | internal/config/config.go:22-33 | each of the seven settings reads its own variable with its own default (PORT/8080, GIN_MODE/debug, DB_HOST/localhost, DB_PORT/3306, DB_USER/root, DB_PASSWORD/rootpassword, DB_NAME/MAIN), so none is empty; the proxy list is the comma-separated entries of TRUSTED_PROXIES or the default proxy |
| `Config.NewConfigDefaults` | internal/config/config.go:23-32 | an empty environment gives port 8080, mode debug, localhost:3306, root/rootpassword, database MAIN, proxy 192.168.1.2 |
| `Config.GetDSN` | internal/config/config.go:36-39 | the DSN starts with `user:password@tcp(`, ends with the fixed `?charset=utf8mb4&parseTime=True&loc=Local` and is exactly as long as its parts plus the fixed text |
| `Config.DatabaseRoundTrip` | internal/config/config.go:37 | the tail `/name?charset=...` reads back the database name when it holds no `?` |
| `Config.AddressRoundTrip` | internal/config/config.go:37 | `host:port)/name?...` reads back host, port and name when host holds no `)` or `:`, port no `)` and name no `?` |
| `Config.DsnRoundTrip` | internal/config/config.go:36-39 | the DSN names exactly the configured user, password, host, port and database, in that order: reading it back recovers all five when they hold none of the delimiters that end them |
| `Config.DsnInjective` | internal/config/config.go:36-39 | two configurations with such settings and the same DSN have the same user, password, host, port and database |
| `GoStrings.TrimPrefix` | internal/middleware/auth.go:51 | with the prefix present, prefix plus result is the input; otherwise the input is returned |
| `GoStrings.HasPrefix` | internal/middleware/auth.go:49 | true iff the input is the prefix followed by some string |
| `GoStrconv.ParseInt64` | internal/middleware/auth.go:52 | a success needs a non-empty input of an optional sign followed by one or more ASCII digits; the magnitude of the value is the digits' value and its sign follows the `-`; since the value is an int64, out-of-range digit runs never succeed |
| `GoStrconv.NatDigits` | internal/api/auth_handlers.go:56 | a non-empty run of digits with no leading zero whose value is the number |
| `GoStrconv.FormatInt` | internal/api/auth_handlers.go:56 | `%d` output is `-` exactly for negative numbers, followed by the canonical decimal digits of the magnitude: non-empty, with no leading zero, never `+` |
| `GoStrconv.ParseDigits` | internal/middleware/auth.go:52 | an unsigned digit run within range parses to its value |
| `GoStrconv.ParseNegatedDigits` | internal/middleware/auth.go:52 | `-` followed by a digit run within range parses to the negated value |
| `GoStrconv.ParsePlusDigits` | internal/middleware/auth.go:52 | `+` followed by a digit run within range parses to its value |
| `GoStrconv.ParseOverflow` | internal/middleware/auth.go:52-57 | a digit run above the int64 maximum is rejected unsigned and with `+`; one above the magnitude of the minimum is rejected with `-` |
| `GoStrconv.ParseFormat` | internal/api/auth_handlers.go:56 | every int64 printed with `%d` parses back to itself |
| `GoStrconv.FormatInjective` | internal/api/auth_handlers.go:56 | distinct int64 values print differently |
| `Middleware.BearerSplit` | internal/middleware/auth.go:27-28 | splitting on single spaces gives exactly `["Bearer", t]` iff the header is `Bearer ` followed by a token with no space; lowercase scheme, extra spaces or a missing token fail |
| `Middleware.DecodeToken` | internal/middleware/auth.go:41-69 | `admin-token` gives id 1, `admin`, ADMIN; `user-token-s` with `s` a valid int64 gives that id, role USER and name `"user"+s`; an unparsable suffix gives 401 "잘못된 토큰입니다"; any other token, the empty one included, gives 401 "유효하지 않은 토큰입니다" |
| `Middleware.AdminRoleOnlyFromAdminToken` | internal/middleware/auth.go:41-64 | a decoded identity has role ADMIN iff the token is the admin literal |
| `Middleware.Authenticate` | internal/middleware/auth.go:19-69 | an empty header gives 401 "인증이 필요합니다"; a header that is not `Bearer <token>` gives 401 "잘못된 인증 형식입니다"; otherwise the token's decoding; every rejection is a 401 |
| `Middleware.AdminOnlyFromAdminHeader` | internal/middleware/auth.go:27-48 | a request authenticates as ADMIN iff its header is exactly `Bearer admin-token` |
| `Middleware.AdminGate` | internal/middleware/auth.go:81-102 | the gate continues iff a stored `User` has role ADMIN; no stored identity gives 401, a non-User value gives 500, another role gives 403 |
| `Middleware.Context.Get` | internal/middleware/auth.go:81 | the lookup finds a value iff the key is stored, and returns that value |
| `Middleware.Context.GetAuthUser` | internal/middleware/auth.go:107-115 | returns the stored user and true, or the zero user and false when nothing or a non-User is stored |
| `Middleware.Context.RequireAuth` | internal/middleware/auth.go:16-75 | continues iff the header authenticates, storing exactly that identity; otherwise writes one 401, aborts and stores nothing |
| `Middleware.Context.RequireAdmin` | internal/middleware/auth.go:78-104 | never changes the stored keys; continues iff `AdminGate` allows, otherwise writes its one error and aborts |
| `Models.PasswordNotSerialised` | internal/models/user.go:12 | the password has no influence on a user's JSON form |
| `Models.JsonDeterminesAllButPassword` | internal/models/user.go:6-14 | two users with equal JSON forms differ at most in their passwords |
| `Models.ValidCreateRequest` | internal/models/user.go:17-22 | a valid create body has a name of 3-50 runes, a well-formed e-mail of 1-100 runes, a password of 6-255 runes and role USER or ADMIN |
| `Models.ValidUpdateRequest` | internal/models/user.go:25-30 | the empty update body is valid; in a valid one each non-empty field meets the same bounds as on create |
| `Models.CreateRequestIsUpdateRequest` | internal/models/user.go:17-30 | a create body that meets its tags (name 3-50, e-mail at most 100 and well-formed, password 6-255, role USER or ADMIN, all required) meets the update tags with every field set |
| `Repository.UserStore.FindById` | internal/repository/user_repository.go:26-30 | a failing database gives an error; otherwise the stored user, or NotFound for an absent id |
| `Repository.UserStore.FindByUsername` | internal/repository/user_repository.go:48-52 | a failing database gives an error; otherwise NotFound iff no stored user has the name, else the stored user with that name |
| `Repository.UserStore.Create` | internal/repository/user_repository.go:33-35 | inserts under the next auto-increment id unless the database fails, the name is taken or the key is exhausted; keeps user names unique |
| `Repository.UserStore.Save` | internal/repository/user_repository.go:38-40 | overwrites the record unless the database fails or another user has the name; nothing else changes |
| `Repository.UserStore.Delete` | internal/repository/user_repository.go:43-45 | removes exactly that id when the database works; an absent id is not an error |
| `Repository.UserStore.ListAll` | internal/repository/user_repository.go:19-23 | every stored user exactly once, or an error when the database fails |
| `Repository.LoginLog.Append` | internal/repository/login_repository.go:17-23 | the sink only grows, by exactly the given record |
| `UserApi.AnonymousCallerAccess` | internal/api/user_handlers.go:41-44 | the zero user passes the ownership gate only for target id 0 |
| `UserApi.AnonymousCallerSeesNoStoredUser` | internal/api/user_handlers.go:118-121 | stored ids start at 1, so a target the zero user may access is never a stored user |
| `UserApi.CanAccess` | internal/api/user_handlers.go:44 | an admin may access every id; anyone else exactly their own id |
| `UserApi.RoleChangeForbidden` | internal/api/user_handlers.go:147 | forbidden only for non-admins, and exactly when the caller's merge would differ from an admin's merge of the same request |
| `UserApi.Merge` | internal/api/user_handlers.go:168-180 | the id is kept; a non-empty user name, e-mail or password from the request replaces the stored one, an empty one keeps it; the role changes only for an admin with a non-empty role |
| `UserApi.MergeKeepsIdentity` | internal/api/user_handlers.go:172-180 | an update never changes the id, and a non-admin's update never changes the role |
| `UserApi.MergeEmptyAndIdempotent` | internal/api/user_handlers.go:168-180 | an empty request writes the record back unchanged; merging the same request twice equals merging once |
| `UserApi.MergeKeepsTagsMet` | internal/api/user_handlers.go:168-180 | merging a request that meets the update tags into a record that meets the create tags gives a record that still meets them |
| `UserApi.GetUsers` | internal/api/user_handlers.go:16-26 | a listing failure gives 500; otherwise 200 with the JSON form of every stored user exactly once |
| `UserApi.GetUser` | internal/api/user_handlers.go:30-60 | a non-integer id gives 400 first; then access requires ADMIN or own id, else 403 even for a missing id; then 200 with the user, or 404 |
| `UserApi.CreateUser` | internal/api/user_handlers.go:64-103 | a binding error gives 400; a taken name gives 409; a lookup failure gives 500 "사용자 확인 중 오류가 발생했습니다"; a failed insert gives 500 "사용자 생성 중 오류가 발생했습니다"; 201 iff nothing fails, storing exactly name, e-mail, password and role under a fresh id; nothing else writes |
| `UserApi.UpdateUser` | internal/api/user_handlers.go:107-191 | in order: 400 for a bad id, 403 without ownership, 404 for a missing user, 400 for a binding error, 403 when a non-admin asks for another role, 500 or 409 on a rename to a taken name, 500 when saving fails; otherwise 200 and only that record becomes the merge; every refusal leaves the store unchanged |
| `UserApi.DeleteUser` | internal/api/user_handlers.go:195-225 | 400 for a bad id, 404 for a missing id, 500 when deleting fails, otherwise 200 with the fixed message and only that id removed |
| `AuthApi.MintToken` | internal/api/auth_handlers.go:52-57 | admins get `admin-token`; others get `user-token-` and a suffix that parses to their id; no token holds a space |
| `AuthApi.FormatHasNoSpace` | internal/api/auth_handlers.go:56 | the decimal form of an id holds no space |
| `AuthApi.MintDecodeRoundTrip` | internal/api/auth_handlers.go:52-57 | a minted token decodes to the admin identity for admins, else to id = user id, role USER |
| `AuthApi.MintedIdentityKeepsId` | internal/api/auth_handlers.go:53-57 | the decoded id equals the user's id iff the user is not an admin or has id 1 |
| `AuthApi.MintedTokenAuthenticates` | internal/middleware/auth.go:27-64 | `Bearer` plus a minted token always authenticates, as the token's decoded identity |
| `AuthApi.Adjudicate` | internal/api/auth_handlers.go:25-68 | success iff the user is found and the password verifies; the subject is the found id or 0; both failures give the same 401 message; success returns id, name, e-mail, role and the minted token, and no password |
| `AuthApi.NoUsernameOracle` | internal/api/auth_handlers.go:25-46 | an unknown user name and a wrong password get byte-identical answers |
| `AuthApi.RecordLoginAttempt` | internal/api/auth_handlers.go:72-86 | appends exactly one record built from the client address, user agent, clock reading, user id and outcome |
| `AuthApi.Login` | internal/api/auth_handlers.go:15-69 | a binding error gives 400 and records nothing; otherwise exactly one attempt is recorded: id 0 and failure for an unknown name, the user's id and the outcome otherwise, and the answer is the adjudication's |
| `Server.Admit` | cmd/server/main.go:39-63 | `/login` is public; GET and PUT `/user/:id` proceed iff the header authenticates; `/users`, POST `/user` and DELETE `/user/:id` proceed iff the header is `Bearer admin-token`; a refusal writes exactly one response |

## Left out

- Timestamps (`CreatedAt`, `UpdatedAt`, `LoginTime` as a `time.Time`) are out. The clock reading is an integer parameter.
- The e-mail format check and the bcrypt comparison are opaque parameters. Their algorithms are foreign libraries.
- JSON decoding and the validator's error text are out. Binding is an input whose error text is copied into the 400 body.
- The goroutine that writes the login record is not modelled as concurrency. The model appends the record to the sink and nothing in the response depends on the write's outcome. A write that fails later is silently lost and is not modelled.
- HTTP transport, the logger middleware, `RootHandler`/`PingHandler`, database start-up and `router.Run` are I/O and are out.
- Column sizes of the database schema are not enforced by the store. The store enforces only the unique user name.
- `Repository.UserStore.Save`: requires the record's id to be stored. Its only caller saves a record it has just read; GORM's insert-on-save of an unknown id is not modelled.
- `Repository.UserStore`: a database failure is a fixed set of failing operations for the whole request. Failures that come and go within one request are not modelled.
- `GoStrings.Split`: the separator is a single character. Both call sites split on one-character strings (`" "` and `","`).
- `Config.DsnRoundTrip`: reads the settings back only when they hold none of the delimiters that end them. A setting containing one of them makes the DSN ambiguous, and the MySQL driver's own DSN parser is not part of this model.
- Passwords are stored as given by create and update, while login compares them with bcrypt. This mismatch is the code's, and the model keeps it.
