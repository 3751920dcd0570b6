# User registration in the greenlight API, modelled in Dafny

This project models the user-registration path of the greenlight movie API:

- the `password` value object. It keeps an optional plaintext and a bcrypt hash. `Set` hashes a plaintext. `Matches` checks a plaintext against the hash.
- the account validation rules: `ValidateEmail`, `ValidatePasswordPlaintext` and `validateUser`. They add `(field, message)` entries to a validator's error map.
- how the user repository's `Insert` and `GetByEmail` turn what the database reports into the errors they return.
- `createUserHandler`. It runs hash → validate → insert → schedule the welcome mail → respond, and each failure ends the request early with its own response.

Everything the code calls but does not define is a parameter:

- bcrypt is `Data.Bcrypt`, a pair of functions: `generate(plaintext, cost)`, which may fail, and `compare(hash, plaintext)`.
- the email pattern is `matchesEmail`, a predicate on bytes.
- the database is `Data.Database`. `insertUser` gives what `QueryRowContext(...).Scan` would report for the insert's arguments if its scan destinations matched the query. `userByEmail` gives the same for the lookup by email. As written they do not match; see "## Left out".
- the mailer's `Send` is `send(recipient, template, data)`, which returns an optional error. The data is the user as the handler passes it (its name, email and activated flag).

User input (name, email, password) is a sequence of bytes, because the length bounds count bytes. A Go `error` is `Base.Error`. The sentinel errors are their own constructors. Any other error is known by its text, and it may wrap another error. `errors.Is` is `Base.Is`, which walks the chain of wrapped errors.

The validator package is not part of this model. `Validation` stands in for it:

- `Check(ok, key, message)` records the message when `ok` is false.
- `AddError` keeps the first message recorded for a key.
- `Valid` holds while the error map is empty.

Each validation routine is also described by the list of conditions it passes to `Check`, in order. `ApplyChecks` folds such a list over the error map. The methods that make the calls one by one are proved to end in that folded map. The rules are then stated as lemmas about which keys the map holds.

A request to the handler is modelled as a `Run`. A `Run` holds the steps the handler takes, in order, ending with the response it writes. It also holds what the scheduled welcome-mail task logs. `Api.Registration` is the specification of one request. `Api.CreateUserHandler` builds the `User` and the `Validator` as objects, calls `Set`, `ValidateUser` and `Insert`, and is proved to produce exactly that run.

The handler calls `data.ValidateUser` (cmd/api/users.go:39), but the function is declared as `validateUser` (internal/data/users.go:70). The model treats that call as a call to the rules at lines 70–84.

- A duplicate email is recognised by comparing the error's text (internal/data/users.go:104), not a constraint name or SQL state.
- `Set` leaves the plaintext on the password (internal/data/users.go:39). Nothing clears it, and `validateUser` reads it there (line 76).

## Model

| member | source | states |
|---|---|---|
| `Base.IsMeansOnChain` | internal/data/users.go:135 | `errors.Is(err, target)` holds exactly when `target` is `err` or an error it wraps, directly or further down |
| `Validation.Validator.constructor` | cmd/api/users.go:37 | a new validator has no errors |
| `Validation.Validator.Valid` | cmd/api/users.go:39 | the validator is valid iff its error map is empty |
| `Validation.Validator.AddError` | cmd/api/users.go:48 | the key is present afterwards; a message already recorded for the key is kept, otherwise the new one is recorded |
| `Validation.Validator.Check` | internal/data/users.go:60 | a passing check leaves the map unchanged; a failing one adds its message as `AddError` does |
| `Validation.KeysRecorded` | internal/data/users.go:70-78 | after a run of checks, a key has an error iff it had one before or one of its checks failed |
| `Validation.ApplyConcat` | internal/data/users.go:74-77 | validation can be split at any call: the later checks continue from the map the earlier ones left |
| `Validation.EntriesKept` | internal/data/users.go:65-67 | later checks never overwrite a message already recorded, so the first failing check's message stands |
| `Validation.FailedKeysConcat` | internal/data/users.go:70-78 | the failing keys of two runs of checks are those of either run |
| `Data.Password.constructor` | internal/data/users.go:28-31 | a zero password has neither a plaintext nor a hash |
| `Data.Password.Set` | internal/data/users.go:33-43 | `Set` succeeds iff bcrypt (cost 12) produces a hash. On success the plaintext is the input and the hash is bcrypt's. On failure it returns bcrypt's error and leaves both fields as they were |
| `Data.Password.Matches` | internal/data/users.go:45-57 | it reports true iff the comparison reports no error, and never true together with an error. A mismatch error gives `(false, nil)`. Any other error gives `(false, err)` with that same error |
| `Data.SetThenMatches` | internal/data/users.go:33-57 | if bcrypt accepts its own hashes, a successful `Set(p)` followed by `Matches(p)` reports a match with no error |
| `Data.User.constructor` | cmd/api/users.go:25-29 | the candidate user has the input's name and email and the given activated flag, and its password is the zero value |
| `Data.ValidateEmail` | internal/data/users.go:59-62 | the error map afterwards is the old map with the "must be provided" and "must be a valid address" checks applied, in that order |
| `Data.EmailRule` | internal/data/users.go:59-62 | an "email" error is recorded iff the email is empty or fails the pattern, and no other key is touched |
| `Data.ValidatePasswordPlaintext` | internal/data/users.go:64-68 | the error map afterwards is the old map with the three password checks applied, in order |
| `Data.PasswordRule` | internal/data/users.go:64-68 | a "password" error is recorded iff the password is under 8 or over 72 bytes, and no other key is touched |
| `Data.PasswordBoundaries` | internal/data/users.go:66-67 | passwords of 8 and 72 bytes pass; passwords of 0, 7 and 73 bytes fail |
| `Data.ValidateUser` | internal/data/users.go:70-84 | it applies the name, email and (only when a plaintext is kept) password checks, in source order. It panics with "missing password hash for user" iff the hash is nil, whatever the checks found |
| `Data.UserRules` | internal/data/users.go:70-79 | the keys added are: "name" iff the name is empty or over 500 bytes; "email" iff the email is empty or fails the pattern; "password" iff a plaintext is kept and is under 8 or over 72 bytes. Nothing else is added |
| `Data.NoPlaintextNoPasswordError` | internal/data/users.go:76-78 | a user without a kept plaintext never gets a "password" error |
| `Data.NameBoundaries` | internal/data/users.go:71-72 | a 500-byte name passes and a 501-byte name fails |
| `Data.InsertArguments` | internal/data/users.go:96 | the insert sends the user's name, email and hash, with activated false |
| `Data.InsertSendsNoPlaintext` | internal/data/users.go:96 | users that agree on name, email and hash send the same arguments, so neither the activated flag nor the plaintext reaches the database |
| `Data.InsertError` | internal/data/users.go:101-110 | success gives nil. An error whose text is exactly the `users_email_key` unique violation gives `ErrDuplicateEmail`. Any other error is returned unchanged |
| `Data.InsertErrorClassification` | internal/data/users.go:102-110 | `Insert` fails iff the database reports an error, and it returns `ErrDuplicateEmail` exactly for the unique-violation text (or that same error passed through) |
| `Data.UserModel.Insert` | internal/data/users.go:90-111 | the result is the classification of what the database reports for `(name, email, hash, false)` |
| `Data.LookupResult` | internal/data/users.go:133-142 | exactly one of user and error is nil. A found row gives the user with no error. `sql.ErrNoRows` (possibly wrapped) gives `ErrUserNotFound`. Any other error is returned with no user |
| `Data.UserModel.GetByEmail` | internal/data/users.go:113-143 | exactly one of user and error is nil. `ErrUserNotFound` is returned iff the lookup reports no rows (or that error itself). A returned user is the row the lookup found |
| `Api.RunTask` | cmd/api/users.go:60-66 | the welcome-mail task logs nothing when the mail is sent, and logs the mailer's error text when it is not |
| `Api.CreateUserHandler` | cmd/api/users.go:11-73 | the handler's steps, response and background log are exactly those of `Registration`. Along the way it is proved that `validateUser` cannot panic here, because `Set` has just stored a hash |
| `Api.OneResponseLast` | cmd/api/users.go:31-71 | every request first hashes the password and ends by writing exactly one response, as its last step |
| `Api.HashFailureIsServerError` | cmd/api/users.go:31-35 | if hashing fails, the response is a server error carrying bcrypt's error. Nothing is validated, inserted or scheduled |
| `Api.InvalidInputNotInserted` | cmd/api/users.go:37-42 | if validation finds errors, the response is a failed validation carrying exactly those errors. `Insert` is never called and no mail is scheduled |
| `Api.InputErrorFields` | cmd/api/users.go:39 | the handler's validation reports "name", "email" and "password" errors by their rules, and no other field |
| `Api.InsertedArguments` | cmd/api/users.go:44 | a valid registration inserts the input's name and email with bcrypt's hash and activated false |
| `Api.DuplicateEmailIsFieldError` | cmd/api/users.go:44-54 | when the database reports the unique violation, the response is a failed validation whose only entry is "email": "a user with this email address already exists". No mail is scheduled |
| `Api.OtherInsertFailureIsServerError` | cmd/api/users.go:50-52 | any other insert error gives a server error carrying it. No mail is scheduled |
| `Api.WelcomeMailOnlyOnSuccess` | cmd/api/users.go:60-68 | the welcome mail is scheduled iff the response is Created. It is then scheduled exactly once, after the insert and just before the response, to the input's email with the created user as its data, and the created user is not activated |
| `Api.MailerDoesNotAffectResponse` | cmd/api/users.go:60-66 | whatever the mailer does, the steps and the response stay the same; a mail failure shows only in the log |

## Left out

- JSON decoding of the request and the bad-request response when it fails (cmd/api/users.go:19-23): transport plumbing. The model starts from the decoded input.
- Writing the JSON response, and the server error written when that write fails (cmd/api/users.go:68-71): transport plumbing. The Created response carries the name, email and activated flag the handler set.
- SQL text, `QueryRowContext`, the 30-second context timeouts and `Scan`: driver plumbing. What the database reports is an input.
- The values read back by `Scan`, and the errors the scans as written raise. The ID, creation time and version of a user are not modelled.
  - `Insert` scans `id, created_at, version` into the name, the activated flag and the non-pointer `user.Version` (internal/data/users.go:101). Whenever the statement stores a row, this scan fails: the timestamp cannot go into a bool, and a non-pointer is not a destination. It has already overwritten the name with the id by then.
  - That error is not the unique-violation text, so `Insert` returns it unchanged and the handler answers with a server error after the row is stored (cmd/api/users.go:50-52). As written, `Insert` never reports nil, so the handler never schedules the welcome mail and never writes Created.
  - `GetByEmail` selects `create_at` (internal/data/users.go:115), a column the insert does not return, and passes non-pointers (lines 126, 130-131). So the lookup fails before any row comes back.
  - The nil report in `Data.InsertError`, the found row in `Data.LookupResult`, and the Created and welcome-mail behaviour in `Api.WelcomeMailOnlyOnSuccess` and `Api.MailerDoesNotAffectResponse` are the intended behaviour, the one the database's report gives once the scans match their queries. The code as written does not reach it.
- Structured classification of constraint violations (by SQL state or constraint name): the code compares the error's text, and so does the model. Any change in the driver's wording would turn a duplicate email into a server error.
- bcrypt internals: salting, cost timing, constant-time comparison and its input-length limit. `generate` may fail for any input. A bcrypt that refuses passwords over 72 bytes would fail in `Set`, which runs before validation, so such a password takes the server-error path. The model covers that only through the failure case of `Set`.
- The validator package and `EmailRX`: not shown. The validator is the stand-in described above, and the pattern is a predicate. The properties are stated on which keys are present, and they hold whichever message `AddError` keeps.
- `errors.Is` with custom `Is` methods or multi-error unwrapping: only a single chain of wrapped errors is modelled. Two distinct errors with the same text are the same `Error` value.
- The background goroutine, its recovery and its wait group: concurrency. The scheduled task appears as a step, and its effect appears as the log it would write when it runs. The closure assigns the handler's outer `err` (cmd/api/users.go:61), which races with line 68. That race is not modelled.
- The logger: a logged error is its text.
- `UserModel.Update` (internal/data/users.go:145): an empty method.
- cmd/api/movies.go and cmd/api/movies_test.go: outside the registration path.
