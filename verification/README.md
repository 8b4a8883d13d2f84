# Login-attempt throttling of the user service

This project models the login throttling of a small Go user-account service. The service keeps a counter of failed logins per email in Redis, under a key made of a fixed prefix followed by the email. `LoginUser` reads that counter and works as follows:

- A missing key counts as 0.
- When the count has reached `MaxLoginAttempt`, the login is refused as Forbidden (403) without touching the user repository.
- Otherwise the current count is written back with a fresh TTL and the user is looked up by email.
- An unknown email or a wrong password writes count + 1 and fails. A wrong password fails as Unauthorized (401).
- A matching password succeeds and writes nothing more.

Modules, one per part of the program:

- `Strconv`: Go's `strconv.Atoi` on a 64-bit `int`, exactly as the standard library behaves. This covers the optional sign, the syntax error with 0, and the range error with the clamped bound, which is raised as soon as the leading digits overflow. It also holds the decimal text go-redis stores for an `int` value (`Itoa`).
- `Redis`: the cache as a class. `store` maps each key to an entry that carries its value and the TTL it was last written with. A ghost log records every `Set` issued. The network's answer to each round trip is a parameter (`Link`): delivered, or broken with an I/O error. `redis.Nil` is the error for a missing key.
- `Failure`: the errors the flow returns and the HTTP status of each.
- `UserCache` (`internal/domain/user/service/user_cache.go`): the key function, and the decision `GetLoginAttempt` takes on the cache's reply.
- `Login`: `Attempt`, one login as a function. It takes the cache's map and the collaborators' answers. It returns the result, the error, the `Set` commands issued, the map afterwards, and whether the repository was asked. The throttling properties are proved about it.
- `Service`: `UserServiceImpl` as a class over a cache, a repository and a password verifier. Its methods are `GetLoginAttempt`, `SetLoginAttempt` and `LoginUser`. The `LoginUser` method is proved to do exactly what `Login.Attempt` says. It hands the steps after the limit check to `ProceedLogin`, which does what `Login.Proceed` says.
- `LoginTests`: the four `TestLoginUser` cases stated as lemmas, and a client method that checks them against the contract of the service object.

The implementation of `LoginUser` is not part of this model. Its behaviour is fixed here by the cases in `internal/domain/user/service/user_service_test.go`. Where those cases are silent, the model makes these choices:

- An unknown email is reported as Unauthorized, the same as a wrong password. The tests only require an error. Reporting both the same way stops a caller from telling whether an account exists.
- A cache error on either write is returned as is.
- A repository fault is returned after the write-back, without an increment.

Three places where the code and its tests disagree are modelled explicitly:

- **Key prefix.** `GetLoginAttemptKey` builds `user:login:attempt:<email>` (`user_cache.go:11`). The tests expect `login_attempt:<email>` on every cache command (`user_service_test.go:234`). The prefix is therefore a configuration value, `Config.keyPrefix`. `UserCache.SourceKeyPrefix` and `UserCache.TestKeyPrefix` are both declared. `UserCache.SourceKeyIsNotTestKey` proves that the two keys differ for every email. The test cases use the tests' prefix.
- **Missing key.** `GetLoginAttempt` returns the `redis.Nil` error, with count 0, for a missing key (`user_cache.go:16-17`). The tests treat that case as 0 prior attempts. So the login flow passes over `redis.Nil` and stops on any other read error, including a stored value that is not a number.
- **Type of the stored count.** `SetLoginAttempt` hands the `int` `attempt` to the cache (`user_cache.go:25-26`). The tests mock `Set` with the strings "0" and "1" (`user_service_test.go:238, 271, 278, 334, 340`). go-redis sends an `int` argument as its decimal text, so the model records `Itoa(attempt)` as the stored value. The test cases then see "0" and "1".

## Model

| member | source | states |
|---|---|---|
| `Strconv.Atoi` | internal/domain/user/service/user_cache.go:22 | no error exactly when the text is an optionally signed run of digits whose value fits in 64 bits, and then the result is that value; an error is a range error exactly when the leading digits already exceed the unsigned 64-bit range or the text is a decimal literal out of range, and it comes with the bound of the text's sign (`MinInt64` after a '-', `MaxInt64` otherwise); a syntax error comes with 0 |
| `Strconv.Itoa` | internal/domain/user/service/user_cache.go:26 | the text stored for an `int` count is the canonical decimal literal of that count: it denotes the count, starts with '-' exactly when the count is negative, never with '+', and has no leading zero |
| `Strconv.AtoiItoa` | internal/domain/user/service/user_cache.go:22-26 | parsing the stored text of any 64-bit count gives that count back with no error |
| `Redis.Cache.Get` | internal/domain/user/service/user_cache.go:15 | a present key yields its value; a missing key yields "" with `redis.Nil`; a broken round trip yields its I/O error |
| `Redis.Cache.Set` | internal/domain/user/service/user_cache.go:26 | a delivered `Set` upserts the key with the value and TTL; no other key changes; a broken one changes nothing and returns its error; the command is logged either way |
| `Redis.Cache.Expire` | internal/domain/user/service/user_cache.go:25-26 | a lapsed TTL removes exactly that key and logs no write |
| `Redis.Cache.Preload` | internal/domain/user/service/user_service_test.go:298-300 | an entry put in place from outside the service, as the mocked `Get` reply "3" does, changes only that key and logs no `Set` |
| `Failure.Code` | internal/domain/user/service/user_service_test.go:308 | Forbidden is reported as 403 and Unauthorized as 401, and no other error has either code |
| `UserCache.LoginAttemptKey` | internal/domain/user/service/user_cache.go:10-12 | the key is the prefix followed by the email, nothing more |
| `UserCache.KeysAreDistinct` | internal/domain/user/service/user_cache.go:11 | distinct emails get distinct keys |
| `UserCache.SourceKeyIsNotTestKey` | internal/domain/user/service/user_service_test.go:234 | for every email, the key the code builds differs from the key the tests mock |
| `UserCache.CountFromReply` | internal/domain/user/service/user_cache.go:14-23 | any cache error, `redis.Nil` included, is returned with count 0; "" is count 0 with no error; other text gives its decimal value exactly when it is a 64-bit decimal literal, and a parse error otherwise |
| `UserCache.ReadCount` | internal/domain/user/service/user_cache.go:14-23 | a broken round trip reads as count 0 with its I/O error and a missing key as count 0 with `redis.Nil`; the read has no error exactly when the key is present and holds "" or a 64-bit decimal literal, and then the count is 0 or that literal's value |
| `UserCache.SetThenGet` | internal/domain/user/service/user_cache.go:25-27 | after a delivered `SetLoginAttempt(email, n, ttl)`, `GetLoginAttempt(email)` reads `n` with no error |
| `UserCache.SetLeavesOtherEmails` | internal/domain/user/service/user_cache.go:26 | a write under one email leaves every other email's count unchanged |
| `UserCache.ExpiredCounterReadsAsNil` | internal/domain/user/service/user_cache.go:16-17 | once the key is gone, the read reports `redis.Nil` with count 0 |
| `Service.UserService.GetLoginAttempt` | internal/domain/user/service/user_cache.go:14-23 | reads the count `CountFromReply` gives for the cache's reply under the email's key; every error except a parse error comes with 0; a stored literal yields its value |
| `Service.UserService.SetLoginAttempt` | internal/domain/user/service/user_cache.go:25-27 | issues one `Set` of the count's decimal text under the email's key with the given TTL; the cache's error is returned unchanged |
| `Service.UserRepository.ResolveUserByEmail` | internal/domain/user/service/user_service_test.go:37-40 | returns the repository's answer for the email and records the lookup |
| `Service.UserService.LoginUser` | internal/domain/user/service/user_service_test.go:196-352 | result, error, cache afterwards, `Set` commands issued and repository lookups are exactly those of `Login.Attempt` |
| `Service.UserService.ProceedLogin` | internal/domain/user/service/user_service_test.go:236-241 | below the limit, the cache, the `Set` commands and the repository lookups after writing the count back and checking the credentials are exactly those of `Login.Proceed` |
| `Service.UserService.RejectAttempt` | internal/domain/user/service/user_service_test.go:339-348 | a rejected login writes count + 1 with the configured TTL and fails as Unauthorized, or with the write's error |
| `Login.Attempt` | internal/domain/user/service/user_service_test.go:196-352 | success comes with no error, after a lookup and exactly one `Set`; a failure always carries an error; at most two `Set` commands are issued, and the repository is asked only after one |
| `Login.Proceed` | internal/domain/user/service/user_service_test.go:236-241 | below the limit, the first `Set` writes the current count back under the email's key with the configured TTL; the repository is asked exactly when that write arrived; success comes with no error and that single `Set` |
| `Login.Reject` | internal/domain/user/service/user_service_test.go:339-348 | a rejected login fails after a lookup; the commands are the write-back, then a `Set` of count + 1 under the email's key with the configured TTL; when the increment arrives, the cache is the old one with that entry upserted and the error is Unauthorized; otherwise the cache is unchanged and the write's I/O error is returned |
| `Login.ReadErrorPropagates` | internal/domain/user/service/user_cache.go:16-18 | a read error other than `redis.Nil` (I/O or a non-numeric counter) is returned unchanged; no write is made and the repository is not asked |
| `Login.LockedOutIsForbidden` | internal/domain/user/service/user_service_test.go:298-309 | at or over the limit: false, Forbidden (403), no `Set`, cache unchanged, repository not asked |
| `Login.ThresholdIsInclusive` | internal/domain/user/service/user_service_test.go:299 | a stored count equal to the limit already locks (`>=`) |
| `Login.MissingCounterIsZero` | internal/domain/user/service/user_service_test.go:232-234 | a missing counter is read as 0 prior attempts and does not stop the login |
| `Login.BelowLimitRearmsFirst` | internal/domain/user/service/user_service_test.go:236-238 | below the limit, the first command writes the current count back with the configured TTL; the repository is asked exactly when that write arrived |
| `Login.RejectionIncrementsCounter` | internal/domain/user/service/user_service_test.go:339-348 | an unknown email or a wrong password fails as Unauthorized (401); the commands are count then count + 1; the counter then reads count + 1 |
| `Login.UnknownEmailLikeWrongPassword` | internal/domain/user/service/user_service_test.go:273-285 | an unknown email and a wrong password give the same result, error, commands and cache |
| `Login.MatchSucceedsWithoutReset` | internal/domain/user/service/user_service_test.go:240-254 | a matching password below the limit returns true with no error; the only write is the write-back, so the count is neither raised nor reset |
| `Login.RepositoryFaultNoIncrement` | internal/domain/user/service/user_service_test.go:37-40 | a repository fault is returned unchanged after the write-back, with no increment |
| `Login.SucceedsExactly` | internal/domain/user/service/user_service_test.go:248-252 | success holds exactly when the read is usable, the count is below the limit, the write-back arrived and the password matches the found digest; the error is nil exactly on success |
| `Login.OnlyOwnCounterWritten` | internal/domain/user/service/user_service_test.go:238 | at most two commands are issued, every one under the email's key with the configured TTL, and no other key changes |
| `Login.CounterStaysInRange` | internal/domain/user/service/user_service_test.go:339-340 | a counter between 0 and the limit stays between 0 and the limit after any login, whatever the network does |
| `Login.FirstRejection` | internal/domain/user/service/user_service_test.go:265-278 | from a missing counter, a rejected login writes "0" then "1" under the email's key with the TTL and fails as Unauthorized |
| `Login.RejectionStep` | internal/domain/user/service/user_service_test.go:339-340 | one rejected login moves the counter from k to k + 1 below the limit and leaves it at the limit; a counter at 0 may be missing or hold "0" |
| `Login.NextRejection` | internal/domain/user/service/user_service_test.go:339-340 | the n-th rejection in a row moves the counter from min(n - 1, limit) to min(n, limit) |
| `Login.RejectionsCount` | internal/domain/user/service/user_service_test.go:266-278 | from a counter at 0 (missing or "0"), n rejected logins in a row leave the count at min(n, limit) |
| `Login.LockoutAfterLimit` | internal/domain/user/service/user_service_test.go:298-309 | after `MaxLoginAttempt` rejected logins from a counter at 0 (missing or "0"), the next login is Forbidden even with the right password |
| `LoginTests.SuccessfulLogin` | internal/domain/user/service/user_service_test.go:217-255 | no counter, right password: true, no error, and the only write is `Set(login_attempt:test@example.com, "0", 2m)` |
| `LoginTests.UserNotFound` | internal/domain/user/service/user_service_test.go:258-288 | no counter, unknown email: false with an error; the writes are "0" then "1" with the TTL |
| `LoginTests.MaxLoginAttemptsExceeded` | internal/domain/user/service/user_service_test.go:291-310 | a stored "3" with limit 3: false, 403, no write, no repository call |
| `LoginTests.InvalidPassword` | internal/domain/user/service/user_service_test.go:313-351 | no counter, wrong password: false, 401; the writes are "0" then "1" with the TTL |
| `LoginTests.RunSuccessfulLogin` | internal/domain/user/service/user_service_test.go:217-255 | on the tests' service with no counter, `LoginUser` with the right password returns true with no error, stores "0", logs that one `Set` and one lookup of the email |
| `LoginTests.RunInvalidPassword` | internal/domain/user/service/user_service_test.go:313-351 | on the tests' service with no counter, a wrong password returns false with Unauthorized, stores "1", and logs `Set` "0", `Set` "1" and one lookup |
| `LoginTests.RunUserNotFound` | internal/domain/user/service/user_service_test.go:258-288 | on the tests' service with no counter for the unknown email, the login returns false with an error, stores "1" under that email's key, and logs `Set` "0", `Set` "1" and one lookup |
| `LoginTests.RunMaxLoginAttemptsExceeded` | internal/domain/user/service/user_service_test.go:291-310 | on the tests' service with a stored "3", the login returns false with Forbidden, and the cache, the write log and the lookup log are unchanged |
| `LoginTests.TestLoginUser` | internal/domain/user/service/user_service_test.go:196-352 | the four cases run in turn, in the test file's order, on one service built with the tests' settings and mocks. In order, they give (true, nil), (false, an error), (false, 403 Forbidden) and (false, 401 Unauthorized). Along the way the write log, the stored "1" and the lookups are checked. Unlike the Go subtests, which share only their mocks, the cache's state carries over between cases: the counter is preloaded with "3" before the locked-out case and expired before the wrong password |

## Left out

- The HTTP handler, request decoding and validation, and routing: these are transport plumbing.
- Configuration loading: `MaxLoginAttempt`, `LoginAttemptTTL` and the key prefix are fields of `Login.Config`, given to the service's constructor.
- Building the Redis client and checking the connection: the cache is an in-memory map.
- Real TTL expiry and wall-clock time: the TTL is recorded as data. `Redis.Cache.Expire` stands for the moment a TTL lapses.
- Password hashing and bcrypt: the verifier is a function value handed to the service. `CompareBcrypt` returns no match together with bcrypt's error (`shared/crypt/bcrypt.go:10-16`), and the model treats every such failure as a mismatch. The login cases fix only a plain match (`user_service_test.go:243-252`) or mismatch (`user_service_test.go:342-348`) for the mocked comparison, and have no path where verification itself fails. So there is no separate verification fault.
- The relational store behind the repository: its answer for each email is a function value (`Found`, `NotFound` or `Fault`).
- A `Set` whose reply is lost after the server applied it: a broken round trip (`Down`) means the command did not reach the server, so the store is unchanged. A real connection can apply the write and still return an I/O error.
- The lost update between the read and the write when two logins for one email run at once: the model has a single sequential caller.
- `CreateUser` and `ResolveUserByID`: they pass calls through to the repository.
- Error texts and the `Func` field of Go's `NumError`: errors are modelled by kind.
- The status codes of errors other than Forbidden and Unauthorized: the `failure` package is not part of this model, and `Failure.Code` gives them 500.
- The `context.Context` argument and cancellation: they have no effect on the model.
