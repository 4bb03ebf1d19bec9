# Request pipeline of nodejs-api-boilerplate, modelled in Dafny

This project models the request pipeline of the Node.js API boilerplate. It covers four pieces.

- The controller factory `createController`. It checks whether the bearer token was revoked, applies the per-operation rate limits and opens or reuses a database transaction. It then rebinds the operation's repositories to that transaction, extracts the parameters, runs the operation and commits. Its single catch clause rolls an owned transaction back and translates whatever was thrown into an HTTP reply.
- `processRateLimiters`. It gets or creates one limiter per declared policy in the dependency container, queries each limiter for the client, and computes `retrySecs` from the first policy that blocks.
- The operation base class (`getRepositories`, `validate`, `run`). `run` validates the parameters, resolves the acting user through the memory store and then the users repository, and delegates to `execute`.
- The helpers in `src/common/utils.ts`, and the `GetUser` service.

Modules:

- `Js` – JavaScript values, thrown values, `Error.prototype.toString`, truthiness.
- `Strings` – `split`, `indexOf`, ASCII lower- and upper-casing, and `String(n)` on integers.
- `Utils` – `src/common/utils.ts`, including the Express response as a class whose fields the handler updates.
- `Collaborators` – the external services. There is one `Runtime` object holding:
  - the memory store;
  - the container's bindings of key prefixes to limiters;
  - the limiters created so far;
  - the number of transactions opened;
  - a log of every call made to a collaborator.

  How the services answer (limiter counters, consume rejections, begin and commit failures, the users table) is an `Env` value passed in.
- `RateLimiting` – `processRateLimiters`.
- `Operation` – the operation base class.
- `GetUser` – `src/modules/users/getUser.service.ts`.
- `Controller` – `createController`.

Each stage of the pipeline is a pure function of the process state and of `Env`. Each stage also has a method on the `Runtime`, whose `ensures` ties the new state and the appended calls to that function. The properties are lemmas about the functions. "Exactly once" is the number of times a call appears in the call log.

Behaviour of the code worth knowing:

- The pre-check computes `Retry-After` with `Math.round`, not a ceiling. A negative `retrySecs` (a limiter answering with `msBeforeNext <= -501`) does not block, so the guaranteed minimum of 1 second holds only when `msBeforeNext >= -500`.
- In the catch path the `'1'` fallback is never used, so a rejection with less than 500 ms to wait gets `Retry-After: 0sec`.
- A commit that throws is followed by a rollback of the same transaction.
- A parent transaction is rebound to the repositories too, and it is never committed or rolled back.
- A token with fewer than three `.`-segments makes the revocation check read the store under the key `undefined`. A header without a space throws a TypeError.
- A thrown `Error` whose `status` is 429 keeps that status and gets no `Retry-After` header.
- A user that neither the memory store nor the repository knows makes `run` throw `Error('JWT_TOKEN_HAS_INVALID_USER')`, and the reply is 500.

## Model

| member | source | states |
|---|---|---|
| Controller.HandleRequest | src/common/createController.ts:44-184 | The controller on the runtime leaves exactly the state, call log and reply that `Pipeline` gives. The response gets the reply's headers in order, its code and the body `{ result }`. |
| Controller.TryBody | src/common/createController.ts:51-139 | The `try` block on the runtime returns the completion and the `transaction` variable that `TrySpec` gives, with the matching state and calls. |
| Controller.Gate | src/common/createController.ts:71-94 | The rate-limit stage on the runtime (get-or-create, queries, 429 gate, consumption and the rest) matches `RateLimit` followed by the transaction stage. |
| Controller.Consume | src/common/createController.ts:94-131 | Every chosen limiter is consumed in order. A rejection stops the block with that rejection; otherwise the transaction stage follows. |
| Controller.Unit | src/common/createController.ts:99-131 | An owned transaction is opened (or its failure thrown) and the parent is reused otherwise. State and calls match `Transaction`. |
| Controller.RebindRepositories | src/common/createController.ts:116-122 | `setDbAccess(transaction)` is called on each repository of the instance, in property order, and the process state is unchanged. |
| Controller.RunBody | src/common/createController.ts:116-131 | The rebinding when a transaction exists, then parameter extraction, `run` and the commit, as `Body` gives. |
| Controller.ExtractAndRun | src/common/createController.ts:124-131 | `paramsCb`, then `run`. Only an owned transaction is committed, and a throwing commit completes the block with that throw. |
| Controller.Translate | src/common/createController.ts:149-182 | A schema error gives 400 with the formatted issues and its message. No other reply carries a message. The code is 400, 429, 500 or the thrown value's own status. |
| Controller.TranslateAsWritten | src/common/createController.ts:17-21 | The catch clause as the text stands: a schema error throws `TypeError: formatValidationError is not a function` instead of replying, and every other thrown value replies as `Translate` does. |
| Controller.SchemaErrorUnansweredAsWritten | src/common/createController.ts:149-156 | As written a schema error gets no reply. With a working formatter it gets 400 with the formatted issues and its message. |
| Controller.TranslateSchemaError | src/common/createController.ts:149-156 | A schema error yields 400 with the formatted issues and the error's message. |
| Controller.TranslateRejection | src/common/createController.ts:157-176 | A non-Error with a truthy `msBeforeNext` yields 429 with `Retry-After: <round(ms/1000)>sec`. The `'1'` fallback is dead, so 1-499 ms gives `0sec`. |
| Controller.TranslateOtherErrors | src/common/createController.ts:177-182 | Any other value yields `{ error: toString(), message }` with its own non-zero status. Otherwise 400 exactly when the lower-cased text mentions a validation error, else 500. |
| Controller.TranslateCodes | src/common/createController.ts:149-182 | The code is 400, 429, 500 or the value's own status. A header is present exactly on the rate-limit path, and it is then the single `Retry-After` of a 429. |
| Controller.ErrorBody | src/common/createController.ts:180 | The body holds the string form under `error`, and `message` exactly when the thrown value has one. |
| Controller.RevocationKey | src/common/createController.ts:52-56 | The check is skipped exactly without a non-empty header. It throws the TypeError exactly for a header without a space. A key read from the token holds no `.`. |
| Controller.RevocationKeyOfBearer | src/common/createController.ts:55-56 | For `Scheme h.p.s` the key looked up is the signature `s`. |
| Controller.HeaderWithoutSpaceCrashes | src/common/createController.ts:55-56 | A non-empty header without a space throws a TypeError (reading `split` of undefined) before any call. |
| Controller.NoAuthorizationGoesToRateLimits | src/common/createController.ts:52-79 | Without a non-empty Authorization header the revocation check makes no call. The `try` block is then exactly the rate-limit stage and what follows it. Its first calls are one query per declared policy for the client. |
| Controller.NotAdmittedEvents | src/common/createController.ts:52-68 | A request stopped by the revocation check makes no call beyond the store read. |
| Controller.AdmittedStartsWithQueries | src/common/createController.ts:52-79 | An admitted request's calls start with the revocation read (if any), followed by one query per chosen limiter. |
| Controller.RevokedTokenRejected | src/common/createController.ts:57-68 | A revoked token gets 400 `{ error: 'JWT_ALREADY_EXPIRED' }` after a single store read. The state is unchanged and no limiter, transaction or operation is called. |
| Controller.BlockedClientRefused | src/common/createController.ts:81-87 | When `retrySecs > 0` the reply is 429 with `Retry-After: <retrySecs>sec` after only the revocation read and the queries. Nothing is consumed and no transaction is touched. |
| Controller.BlockedAtGate | src/common/createController.ts:81-87 | The whole outcome of a blocked request: the resolved registry, the queries, and the 429 reply. |
| Controller.RejectedAtGate | src/common/createController.ts:94 | When a consumption rejects, every chosen limiter has been consumed and the reply translates the rejection of the first one that rejects. No transaction is opened. |
| Controller.LimiterCallCounts | src/common/createController.ts:74-94 | Each limiter is queried once per policy naming it. It is consumed once per policy naming it when the client is not blocked, and never when it is. |
| Controller.BeginFailure | src/common/createController.ts:100-104 | When `db.transaction()` throws, the log ends with the consumption: the failed attempt itself is not a logged event, and nothing after it is called. The state is the one after the limiters were resolved, and the reply translates that error. |
| Controller.TransactionShape | src/common/createController.ts:99-131 | The transaction stage's calls in order (begin, rebinding, `paramsCb` and `run`, commit) and how it completes; owned and unowned cases. |
| Controller.BodyShape | src/common/createController.ts:116-131 | From the rebinding to the commit: the calls in order, the commit only of an owned transaction, and the completion. |
| Controller.ReachedPipeline | src/common/createController.ts:99-184 | For a request past the gate, the reply is the transaction stage's result or the translation of what it threw, and the state is that stage's. |
| Controller.ReachedEvents | src/common/createController.ts:52-147 | For a request past the gate, the calls are the revocation read, queries, consumptions, the transaction stage, and a rollback exactly when an owned transaction threw. |
| Controller.TransactionFootprint | src/common/createController.ts:99-131 | The transaction stage calls only data collaborators. It opens and commits only an owned transaction, the next one. |
| Controller.TransactionEventsOnlyWhenOwned | src/common/createController.ts:100-147 | Any begin, commit or rollback in a request concerns the owned transaction. Without ownership (a parent, or no transaction) there is none. |
| Controller.OwnedTransactionClosedOnce | src/common/createController.ts:124-147 | An owned transaction is opened once, committed once when `paramsCb`/`run` complete normally, and rolled back once when they throw or the commit throws. The reply follows. |
| Controller.UnownedReply | src/common/createController.ts:124-147 | Without an owned transaction the reply is the result with 200, or the translation of what was thrown. |
| Controller.ParentRebound | src/common/createController.ts:105-122 | A parent transaction is rebound to every repository of the operation. |
| Controller.NoTransactionNoRebinding | src/common/createController.ts:116-122 | Without any transaction no repository is rebound. |
| Controller.NoExecuteWithoutRun | src/common/createController.ts:124-125 | `execute` is called only from within `run`. |
| Controller.DirectExecutionScenario | src/common/createController.ts:44-139 | No header, no policies, no transaction and no user id: `execute` is the only call, and its value is returned with 200. |
| Controller.TooManyRequestsScenario | src/common/createController.ts:186-220 | A 5-points policy and a client at 6 points with at most a minute to wait gets 429 with a wait between 1 and 60 seconds, and nothing consumed. |
| Controller.DomainErrorScenario | src/common/createController.ts:140-182 | A 409 domain error from `execute` in an owned transaction: one rollback, no commit, 409 with the message in the body. |
| Controller.UnknownUserScenario | src/common/createController.ts:124-182 | An unknown user: `execute` is never called and the reply translates `JWT_TOKEN_HAS_INVALID_USER`. |
| RateLimiting.ProcessRateLimiters | src/common/createController.ts:186-226 | On the runtime: the registry and limiters become `Resolve`'s, the chosen limiters are returned after one query each, and `retrySecs` is `RetrySecs` of the answers. |
| RateLimiting.ResolveLimiters | src/common/createController.ts:190-204 | The reduce on the runtime yields exactly `Resolve`'s registry, limiter table and chosen limiters. |
| RateLimiting.GetOrCreate | src/common/createController.ts:191-203 | A bound prefix reuses its limiter; an unbound one gets a new limiter bound to it. |
| RateLimiting.QueryLimiters | src/common/createController.ts:207-209 | One `get(ip)` per chosen limiter, in order; the answers are what each limiter reports. |
| RateLimiting.ComputeRetry | src/common/createController.ts:205-220 | The scan over the answers computes `RetrySecs`. |
| RateLimiting.ConsumeAll | src/common/createController.ts:94 | One `consume(ip)` per chosen limiter, in order; the result is the first rejection in list order. |
| RateLimiting.Resolve | src/common/createController.ts:190-204 | One chosen limiter per policy, and the existing limiters are kept as they are. |
| RateLimiting.ResolveSound | src/common/createController.ts:190-204 | Get-or-create keeps the registry consistent and keeps old bindings. It binds every policy's prefix and returns the bound limiter for each policy, in order. New bindings are only for prefixes of the list. |
| RateLimiting.SamePrefixSameLimiter | src/common/createController.ts:192-200 | Policies sharing a key prefix share one limiter, even within one list. |
| RateLimiting.ResolveReusesBound | src/common/createController.ts:192-193 | When every prefix is bound nothing is created and the registry is unchanged. |
| Collaborators.OneLimiterPerPrefix | src/common/createController.ts:192-200 | In a consistent registry at most one limiter exists per key prefix. |
| RateLimiting.GetsCount | src/common/createController.ts:207-209 | Each limiter is queried once per occurrence in the chosen list. |
| RateLimiting.ConsumesCount | src/common/createController.ts:94 | Each limiter is consumed once per occurrence in the chosen list. |
| RateLimiting.LimiterCallsAreForTheClient | src/common/createController.ts:94 | Queries and consumptions are all for the client's address. |
| RateLimiting.FirstBlocking | src/common/createController.ts:211-220 | The position found is a policy that blocks. |
| RateLimiting.FirstBlockingMeaning | src/common/createController.ts:211-220 | The first blocking policy in declaration order is found; none is found only when no policy blocks. |
| RateLimiting.RetrySecsMeaning | src/common/createController.ts:205-220 | `retrySecs` is 0 exactly when no policy blocks. Otherwise it is `round(ms/1000) \|\| 1` for the first blocking policy, and at least 1 when `ms >= -500`. |
| RateLimiting.RetrySecsStep | src/common/createController.ts:213-218 | One more answer decides only when no earlier policy decided. |
| RateLimiting.ExactlyAtLimitDoesNotBlock | src/common/createController.ts:216 | Blocking is strict: `consumedPoints == points` gives 0, one more point blocks. |
| RateLimiting.RoundMs | src/common/createController.ts:218 | `Math.round(ms / 1000)`: the integer nearest to `ms / 1000`, halves upward. |
| RateLimiting.OrOne | src/common/createController.ts:218 | `x \|\| 1` keeps a non-zero `x` and turns 0 into 1. |
| RateLimiting.RetrySecs | src/common/createController.ts:205-220 | `retrySecs` is 0 exactly when no policy blocks. |
| RateLimiting.FirstRejection | src/common/createController.ts:94 | A rejection of the consumption is the rejection of one of the chosen limiters. |
| RateLimiting.FirstRejectionMeaning | src/common/createController.ts:94 | The consumption fails exactly when some limiter rejects, and then with the first rejection in list order. |
| Operation.GetRepositories | src/common/operation.ts:20-30 | The loop returns exactly `Repositories` of the properties. |
| Operation.Repositories | src/common/operation.ts:20-30 | The result holds exactly the repository properties. |
| Operation.RepositoriesInOrder | src/common/operation.ts:23-27 | The repositories keep the property order. |
| Operation.RepositoriesCount | src/common/operation.ts:23-27 | Each repository is kept as often as it is held, and nothing else is kept. |
| GetUser.ValidateGetUser | src/common/operation.ts:32-41 | With GetUser's rules, `validate` never answers with the missing-rules string. It reports no error exactly for an object with a UUID `userId` and an `email` that is absent or at least 3 UTF-16 code units long; the data then carries those two values. Otherwise it gives a schema error with undefined data, naming an object's failing fields. |
| Operation.Merge | src/common/operation.ts:73 | `{ ...validated, user }` always yields an object whose `user` is the given user. From an object it keeps every field other than `user`, and its keys are the object's keys plus `user`. |
| Operation.MergeSpreadsIndices | src/common/operation.ts:73 | An array spreads its elements under the keys `"0"`, `"1"`, …, and a string its one-character strings. `undefined`, `null`, booleans and numbers spread nothing, leaving only `user`. |
| Operation.Run | src/common/operation.ts:46-74 | `run` on the runtime matches `RunSpec`: result, store and calls. |
| Operation.RunFootprint | src/common/operation.ts:46-74 | `run` calls only the store, the repository and `execute`, calls `execute` at most once and last, and writes only the user id. |
| Operation.MissingRulesThrow | src/common/operation.ts:37-50 | Without rules `run` throws `Error(<missing-rules text>)` and makes no call. |
| Operation.SchemaErrorRethrown | src/common/operation.ts:51-53 | A schema error is thrown unchanged and nothing is called. |
| Operation.NoUserIdGoesStraightToExecute | src/common/operation.ts:56-73 | Without a user id only `execute` is called, with `user = null`. |
| Operation.CacheHit | src/common/operation.ts:59-62 | A cached user is used; the repository is not consulted and nothing is written. |
| Operation.CacheMissWriteBack | src/common/operation.ts:62-66 | On a miss the found user is written back before `execute` receives it. |
| Operation.UnknownUserThrows | src/common/operation.ts:67-69 | A user found nowhere makes `run` throw `JWT_TOKEN_HAS_INVALID_USER` without calling `execute`. |
| Operation.ExecuteCalledIff | src/common/operation.ts:46-73 | `execute` is called exactly when validation passes and a named user is found in the store or the repository. |
| GetUser.Rules | src/modules/users/getUser.service.ts:16-19 | Input is valid exactly when it is an object whose `userId` is a UUID and whose `email`, when present, has a JavaScript length (UTF-16 code units) of at least 3. The data keeps only these keys. |
| GetUser.TwoAstralCharactersAreLongEnough | src/modules/users/getUser.service.ts:18 | Two characters outside the Basic Multilingual Plane meet `min(3)` as JavaScript counts them, while `ab` does not. |
| Strings.Utf16Length | src/modules/users/getUser.service.ts:18 | JavaScript's `length` counts UTF-16 code units: between one and two per character. |
| GetUser.FailingFields | src/modules/users/getUser.service.ts:16-19 | No field fails exactly when both rules hold. |
| GetUser.ParsedUserIdIsTruthy | src/modules/users/getUser.service.ts:17 | Valid input always names a user. |
| GetUser.LookupKeyOfValidInput | src/modules/users/getUser.service.ts:30-34 | For valid input, whatever user `run` merges in, the repository is asked for the given e-mail. Without an e-mail it is asked for the UUID `userId`. |
| GetUser.OmitPassword | src/modules/users/getUser.service.ts:36 | The result has every key of the record except `password`. |
| GetUser.Normalize | src/modules/users/getUser.service.ts:37-47 | A thrown string becomes `Error(string)`, an Error `Error(message)`, and anything else `Error('An unexpected error occurred')`. |
| GetUser.ExecuteOnValidInput | src/modules/users/getUser.service.ts:24-48 | For valid input, `execute` returns exactly when `findById` (by e-mail, else by id) returns. It then holds every field of the found record except `password`. A throw is a plain `Error` with status 0 that keeps a thrown string as its message. |
| GetUser.NoPasswordReturned | src/modules/users/getUser.service.ts:36 | A returned record never carries `password`. |
| GetUser.ThrownStatusIsDropped | src/modules/users/getUser.service.ts:42-43 | A repository error is re-wrapped with its message only; its status is lost. |
| GetUser.Decl | src/modules/users/getUser.service.ts:14-22 | The operation has no policies, no transaction, the rules above and GetUser's `execute`. |
| GetUser.BothRepositoriesRebound | src/modules/users/getUser.service.ts:21-22 | Both injected users repositories (inherited and own) are rebound when a transaction is used. |
| GetUser.RunWithCachedUser | src/modules/users/getUser.service.ts:24-36 | With a cached user, valid input gives one store read and one `execute` call with the e-mail or id as lookup key. |
| Utils.GetRoleCode | src/common/utils.ts:12-16 | `getRoleCode` throws a TypeError exactly for the empty role. Otherwise it finds a code, always 1, 2 or 4, exactly when the capitalised role is `Anonym`, `Registered` or `Admin`. |
| Utils.GetRoleCodeFinds | src/common/utils.ts:12-16 | A role is found exactly when it is the declared name or that name with a lower-case first letter. |
| Utils.OnlyFirstCharacterIsUpperCased | src/common/utils.ts:13 | `aDMIN` is not found. |
| Utils.RoleCodesAreDistinctBits | src/common/utils.ts:5-11 | The role codes are 1, 2 and 4, distinct for distinct names. |
| Utils.Capitalize | src/common/utils.ts:13 | Only the first character may change. |
| Utils.IsErrorCode | src/common/utils.ts:26 | A code is a success code exactly when it is non-negative and its leading decimal digit is 2. |
| Utils.IsErrorCodeMeaning | src/common/utils.ts:25-26 | A code is a success exactly when it is non-negative and lies in `[2·10^k, 3·10^k)` for some k. |
| Utils.IsErrorCodeExamples | src/common/utils.ts:25-26 | Every 2xx code is a success; 404, 500 and negative codes are errors. |
| Utils.GetStatusForError | src/common/utils.ts:27-33 | The result is 400 or 500, and 400 exactly when the lower-cased text contains `validationerror`. |
| Utils.GetStatusForErrorIgnoresCase | src/common/utils.ts:28 | Texts that differ only in letter case get the same status. |
| Utils.ValidationErrorIsBadRequest | src/common/utils.ts:28-29 | A text containing `ValidationError` gives 400. |
| Utils.DefaultResponseHandler | src/common/utils.ts:35-44 | Every header is set in order, then the status is the code and the body is `{ result }`. |
| Utils.SetHeadersLastWins | src/common/utils.ts:39-41 | Each listed header carries the last value given for it; other headers are unchanged. |
| Utils.Response.Set | src/common/utils.ts:40 | `res.set` changes only that header. |
| Utils.Response.Send | src/common/utils.ts:43 | `res.status(code).json(body)` sets the status and the body. |
| Utils.StringifyError | src/common/utils.ts:46-48 | The text starts with `name=`. When the rendered name has no `:`, the name follows and then `:message=` and the rendered message. |
| Utils.StringifyErrorDetermines | src/common/utils.ts:46-48 | When names contain no `:`, the text determines the error's name and message. |
| Utils.FormatNameMessageInjective | src/common/utils.ts:47 | The `name=..:message=..` layout is decodable when names contain no `:`. |
| Utils.StringifyThrownString | src/common/utils.ts:47 | A thrown string renders as `name=undefined:message=undefined`. |
| Strings.JoinSplit | src/common/createController.ts:55-56 | `split` loses nothing: joining the pieces gives the string back. |
| Strings.SplitPiecesAreFree | src/common/createController.ts:55-56 | No piece of `split` contains the separator. |
| Strings.IndexOfFrom | src/common/utils.ts:28 | `indexOf` returns the first occurrence at or after the start, or -1 when there is none. |
| Strings.IndexOfFound | src/common/utils.ts:28 | `indexOf(p) > -1` holds exactly when `p` occurs. |
| Strings.Lower | src/common/utils.ts:28 | `toLowerCase` keeps the length. It maps each ASCII letter `A`-`Z` to the letter 32 code points above and keeps every other character, so no upper-case ASCII letter is left. |
| Strings.IntToStringInjective | src/common/createController.ts:85 | `String(n)` is injective, so `Retry-After` determines `retrySecs`. |
| Strings.ParseDigitsOfDigits | src/common/createController.ts:85 | The decimal digits of `n` read back as `n`. |
| Strings.LeadingDigitRange | src/common/utils.ts:26 | The first digit is `d` exactly when the number lies in `[d·10^k, (d+1)·10^k)`. |
| Js.NewError | src/common/operation.ts:50 | `new Error(m)` is an Error whose text is `Error: m` (or `Error` for an empty message). |
| Collaborators.Runtime.GetValue | src/common/createController.ts:57 | `memoryStorage.getValue` returns the stored value or null and logs the read. |
| Collaborators.Runtime.SetValue | src/common/operation.ts:66 | `memoryStorage.setValue` updates the store and logs the write. |
| Collaborators.Runtime.FindUser | src/common/operation.ts:63 | `findById` answers from the users table and logs the call. |
| Collaborators.Runtime.Bind | src/common/createController.ts:195-200 | A new limiter is created from the policy and bound to its prefix; the registry stays consistent. |
| Collaborators.Runtime.GetState | src/common/createController.ts:208 | `limiter.get(ip)` reports the limiter's counter and logs the query. |
| Collaborators.Runtime.Consume | src/common/createController.ts:94 | `limiter.consume(ip)` reports its rejection and logs the call. |
| Collaborators.Runtime.BeginTransaction | src/common/createController.ts:103-104 | `db.transaction()` throws, or opens the next transaction and logs it. |
| Collaborators.Runtime.GrantDbAccess | src/common/createController.ts:119 | `setDbAccess` is logged and changes nothing else. |
| Collaborators.Runtime.CommitTx | src/common/createController.ts:130 | `commit()` is logged and throws as the database says. |
| Collaborators.Runtime.RollbackTx | src/common/createController.ts:144 | `rollback()` is logged. |
| Collaborators.Runtime.CallExecute | src/common/operation.ts:73 | `execute(params)` completes as the operation's own function and is logged. |

## Left out

- Logging (`logger.*`): it has no effect on behaviour.
- Redis and the internals of the rate-limiter library. A limiter is what its `get` reports and what its `consume` rejects with, taken from `Env` per key prefix. Points consumed are not stored back, because one request never reads them again.
- The `request-ip` extraction: the client's address is a field of the request.
- The concurrency of `Promise.all` and of `await`: the calls are modelled one after another in list order, all are made, and the first rejection in list order wins.
- Knex internals: a transaction is a number that counts the transactions opened. Commit and rollback appear in the call log.
- A `db.transaction()` call that throws is not a logged event: the call log records only the transactions that open.
- Zod's parsing. Zod 3 is assumed, whose `ZodError.toString()` returns the message alone (`Js.ToStringOf`). `formatValidationError` is not defined in `src/common/utils.ts`, which it is imported from (see "## Findings"). The model assumes a working formatter, whose result is the `formatted` field of a schema error. A validator is a function from input to data or a schema error. `GetUser.Rules` spells out the GetUser schema, but its issue texts (`GetUser.JoinFields`, "Expected object") stand in for Zod's wording.
- `toCamelCase` and lodash: only the removal of `password` by `_.omit` is modelled. Key renaming is not.
- InversifyJS reflection and decorators. The container is the registry map. The own properties of an operation instance are listed in declaration order, as the class fields are defined.
- `container.resolve` failing, and a custom response callback (`resCb`): the default handler is used. The `!resCb` branch at `src/common/createController.ts:135-137` is not modelled.
- A rollback or a response callback that throws inside the catch clause, a failing `limiter.get`, and failing memory-store calls.
- Thrown `null` or `undefined` are not modelled. Thrown values are Errors, schema errors, strings, or other objects with a string form.
- `getHashedValue`: MD5 through `crypto` is a foreign call.
- `llm-codegen`, `jest.config.js` and the loaders: tooling, test configuration and bootstrap wiring.
- Utils.GetRoleCode: `UserRoles[enumValue]` on the enum object also finds properties inherited from `Object.prototype`. For example `__proto__`, `__defineGetter__` and `__lookupGetter__` are unchanged by capitalising and return the prototype or a function. The model answers these with "not found", because it has no value for an inherited property.
- Operation.MergeSpreadsIndices: strings are sequences of code points. JavaScript spreads a string per UTF-16 code unit, so a character outside the Basic Multilingual Plane gives two keys, each holding one half of a surrogate pair. The model gives one key holding the whole character, because a lone surrogate is not a Dafny `char`. Strings made only of Basic Multilingual Plane characters spread as in JavaScript.
- Unicode case mapping: lower- and upper-casing are ASCII only. The reverse mapping of TypeScript numeric enums is not modelled.
- Numbers are integers: NaN, `-0` and fractional `msBeforeNext` are not modelled.
- The users-repository call inside `GetUser.execute` is part of the `execute` call in the log. It is not a separate event.

## Findings

| source | as written | input that shows it | evidently intended | confidence | as-written member | corrected member |
|---|---|---|---|---|---|---|
| src/common/createController.ts:17-21 | `formatValidationError` is imported from `./utils`, whose export list (`src/common/utils.ts:50-57`) does not contain it and which defines no such function. Lines 150 and 152 call it inside the catch clause. | Any request whose operation throws a schema error, for example GetUser with `userId: "x"`. Without type checking, the catch clause throws `TypeError: formatValidationError is not a function` and no reply is sent. A type-checking build refuses the file. | A formatter exported from `utils.ts`, with the reply 400 `{ result: <formatted issues> }` and the error's message. | high (not executed) | Controller.TranslateAsWritten | Controller.Translate |
