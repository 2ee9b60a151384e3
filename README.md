# Contacts service: a Dafny model of its auth and contact core

This project models the decision logic of a FastAPI contacts service:

- user registration, login, and email confirmation;
- JWT issuance and checking;
- the cache-aside resolution of a bearer token to a user (`get_current_user`);
- the per-user contact repository with its service layer, which translates database integrity errors into HTTP errors;
- the request-body validators.

The relational store is a `Session` object holding the `users` and `contacts` tables as sequences in table order. It also carries:

- the two id serials;
- the unique-index invariants (`Session.Valid`);
- commit and rollback counters;
- a flag that marks a transaction waiting for a rollback.

The Redis client is a `KeyValueStore` object with values, remaining TTLs, and a log of the commands sent to it. bcrypt and JWT signing are pairs of function values (`Hasher`, `TokenCodec`). Their only assumed property is round-tripping, which appears only as a lemma precondition (`SoundHasher`, `SoundCodec`).

Modules, one per source file plus shared ones:

| module | file | models |
|---|---|---|
| `Wrappers` | wrappers.dfy | `Option`, `Result` |
| `Strings` | strings.dfy | lower-casing, Python's substring `in`, SQL `LIKE`/`ILIKE` |
| `Errors` | errors.dfy | `HTTPException` and the uncaught Python exceptions that become a 500 |
| `Models` | models.dfy | the `users`/`contacts` rows, their constraints, and the session |
| `Schemas` | schemas.dfy | src/schemas.py |
| `UserRepo` | user_repository.dfy | src/repository/users.py |
| `ContactRepo` | contact_repository.dfy | src/repository/contacts.py |
| `ContactServices` | contact_service.dfy | src/services/contacts.py |
| `AuthService` | auth_service.dfy | src/services/auth.py |
| `AuthApi` | auth_api.dfy | src/api/auth.py |

## Behaviour of the code worth knowing

The model follows the code in each of these cases.

- **Cache hit whose id names no user.** The hit branch looks the user up by the cached id only (src/services/auth.py:113-121). When that finds nobody, `user` is None and the answer is 401; there is no second lookup by name. See `AuthService.StaleHitHasNoFallback`.
- **Cached object without a truthy `id`.** `if user_id:` guards the only assignment to `user` in the hit branch (src/services/auth.py:119-120). An absent, null or `0` id therefore leaves `user` unbound, and `if user is None` raises `UnboundLocalError` (a 500), not a 401. See `AuthService.FalsyCachedIdIsUnbound`.
- **Cached bytes that are not a JSON object.** `json.loads` or `.get` raises inside the `try`, and the handler sets `user = None` (src/services/auth.py:122-124). The answer is 401; the database is not consulted.
- **Cache key.** Entries live under `"user:" + username` (src/services/auth.py:105 and 138-140) with a TTL of 900 seconds.
- **Re-send for an unknown email.** `request_email` reads `user.confirmed` before it tests `user` (src/api/auth.py:133-135), so an unknown email raises `AttributeError` (a 500). The integration test at tests/integration/test_integration_auth.py:180-188 expects 200 "Check your email for confirmation." for this input; the model follows the code. See `AuthApi.RequestEmail`.
- **Miss for an unknown name.** `safe_data` is assigned only when the user exists (src/services/auth.py:129-135). Otherwise `json.dumps(safe_data)` raises inside the `try` of lines 137-142 before `r.set` is called, so nothing is sent to the store and the answer is 401. See `AuthService.MissForUnknownNameWritesNothing`.
- **Contact filters are `ILIKE` patterns.** The filter text is put into `ilike(f"%{name}%")` unescaped (src/repository/contacts.py:62-67), so `%`, `_` and `\` in it act as wildcards and escapes. See `ContactRepo.TextFilterIsSubstring` and `ContactRepo.UnderscoreFilterIsWildcard`.
- **PUT assigns `id`.** The PUT body carries `id` (src/schemas.py:57-67) and `put_contact` assigns every dumped item (src/repository/contacts.py:140-141). A PUT can therefore move a contact to another id, or collide with another contact's primary key.
- **Null subject.** The JWT library's default claim checks reject a `sub` that is present but not a string, raising a JWTError. So `if username is None` (src/services/auth.py:98-99) never fires, and `get_email_from_token` (src/services/auth.py:185-194) never returns None: both paths end in the JWTError handler, 401 and 422 respectively. See `AuthService.DecodeToken`.
- **PATCH with null.** A PATCH that sends null for a NOT NULL column fails at commit with a not-null violation (src/repository/contacts.py:158-164). The modelled message (its first line only, see "Left out") does not contain "contacts_email_key", so the service answers 400.

## Model

| member | source | states |
|---|---|---|
| `Strings.ContainsIffOccurs` | src/services/contacts.py:17 | Python's `sub in s` holds exactly when `sub` occurs at some position of `s` |
| `Strings.Like` | src/repository/contacts.py:62-67 | PostgreSQL `LIKE`: `%` matches any run, `_` any one character, `\` escapes the next; its meaning is fixed by the lemmas below |
| `Strings.ILike` | src/repository/contacts.py:62-67 | `ILIKE` is `LIKE` after lower-casing both sides |
| `Strings.ILikeIsCaseInsensitiveContains` | src/repository/contacts.py:62-67 | for a filter without `%`, `_` or `\`, `col ILIKE '%q%'` is a case-insensitive substring test |
| `Models.UniqueViolation` | src/services/contacts.py:17 | a unique-index violation message names the violated index |
| `Models.NotNullViolation` | src/database/models.py:32-36 | a not-null violation message names the null column |
| `Models.FindUser` | src/repository/users.py:24-26 | the lookup returns a stored user with the key, and returns None exactly when no stored user has the key |
| `Models.FindUserUnique` | src/database/models.py:70-71 | under unique ids, names and emails, the lookup returns THE user with the key |
| `Models.ContactIndex` | src/repository/contacts.py:122-124 | a contact is found only when both its id and its owner match; None exactly when none does |
| `Models.Without` | src/repository/contacts.py:179-180 | deleting row k leaves the other rows in order |
| `Models.ContactConflict` | src/database/models.py:31-34 | an insert or update clashes exactly when another row has the same id or the same email; an id clash is reported as `contacts_pkey` (checked first), and an email clash without one as `contacts_email_key` |
| `Models.DraftOf` | src/repository/contacts.py:122-124 | a loaded contact is an object with its id, owner and extra_info and every NOT NULL column present |
| `Models.LoadedRowStoresBack` | src/database/models.py:32-36 | a loaded object passes the not-null checks and stores back as the same row |
| `Models.RowOf` | src/database/models.py:32-36 | the commit accepts the in-memory object exactly when name, surname, email, phone and birth_date are non-null, and then stores it unchanged |
| `Models.CommitUpdate` | src/repository/contacts.py:140-143 | a committed update stores the assigned object and clashes with no other row |
| `Models.ReplaceKeepsUnique` | src/database/models.py:31-34 | replacing a row by one that clashes with no other row keeps ids and emails unique |
| `Models.RemoveKeepsUnique` | src/database/models.py:31-34 | deleting a row keeps ids and emails unique |
| `Models.Session.constructor` | src/database/models.py:31-34 | an empty database satisfies the constraints, with both serials at 1 |
| `Models.Session.Rollback` | src/services/contacts.py:56 | a rollback ends the failed transaction, counts once, and changes no table |
| `Schemas.ParseContactCreate` | src/schemas.py:18-23 | an accepted body has all five required fields, names of 1-50 characters, a phone of 7-50 characters, extra_info of at most 255 characters when present, and a valid email; every body meeting these is accepted, as sent |
| `Schemas.ParseContactPut` | src/schemas.py:57-67 | a PUT body is accepted exactly when it is an acceptable create body with an integer `id` |
| `Schemas.ParseContactPatch` | src/schemas.py:84-89 | a PATCH body is accepted exactly when every given field obeys the create bound (absent and null fields always pass), and it keeps each field absent, null or given as sent |
| `Schemas.ParseUserCreate` | src/schemas.py:120-122 | a user body is accepted exactly when user_name, user_email (a valid email) and password are all present |
| `Schemas.CreateRoundTrip` | src/schemas.py:18-23 | a dumped create body parses back to itself exactly when it is valid |
| `Schemas.PutIsCreatePlusId` | src/schemas.py:57-67 | a PUT body is a create body plus `id`, and without `id` it is rejected |
| `Schemas.CreateBodyIsPatchBody` | src/schemas.py:84-89 | every acceptable create body is an acceptable PATCH body |
| `Schemas.PatchAcceptsNulls` | src/schemas.py:84-89 | an all-null PATCH body and an empty one are accepted |
| `UserRepo.NewUser` | src/repository/users.py:65-69 | the inserted row stores `body.password` as the hashed password and the given avatar, and is unconfirmed |
| `UserRepo.CreateUserOutcome` | src/repository/users.py:65-71 | the insert succeeds exactly when no stored user has the name or the email, and then yields the new row |
| `UserRepo.Confirmed` | src/repository/users.py:83-85 | confirming sets `confirmed` on the user with that email and leaves every other row as it was |
| `UserRepo.WithAvatar` | src/repository/users.py:98-100 | the avatar update sets `avatar` on the user with that email and leaves every other row as it was |
| `UserRepo.ConfirmIdempotent` | src/repository/users.py:83-85 | confirming twice gives the same table as confirming once |
| `UserRepo.ConfirmOnlyTouchesConfirmed` | src/repository/users.py:83-85 | confirming changes only `confirmed`, and only for the matching email |
| `UserRepo.UpdatesKeepKeys` | src/repository/users.py:83-100 | confirmation and avatar updates keep ids, names and emails unique and in range |
| `UserRepo.UserRepository.constructor` | src/repository/users.py:7-14 | the repository works on the given session |
| `UserRepo.UserRepository.GetUserById` | src/repository/users.py:16-26 | returns the unique user with that id, or None when there is none |
| `UserRepo.UserRepository.GetUserByUserName` | src/repository/users.py:28-40 | returns the unique user with that name, or None when there is none |
| `UserRepo.UserRepository.GetUserByUserEmail` | src/repository/users.py:42-54 | returns the unique user with that email, or None when there is none |
| `UserRepo.UserRepository.CreateUser` | src/repository/users.py:56-73 | inserts and commits the new row, or leaves the table unchanged and the transaction failed; the id serial advances either way; the constraints hold afterwards |
| `UserRepo.UserRepository.ConfirmedUserEmail` | src/repository/users.py:75-85 | confirms and commits; an unknown email is an attribute error on None with no change |
| `UserRepo.UserRepository.UpdateAvatarUrl` | src/repository/users.py:87-102 | sets only the avatar, commits, and returns the same user with the new avatar; an unknown email is an attribute error on None |
| `ContactRepo.Select` | src/repository/contacts.py:59-71 | the query returns exactly the rows its condition admits |
| `ContactRepo.Page` | src/repository/contacts.py:69 | offset/limit yields at most `limit` rows, the i-th being match `skip+i` |
| `ContactRepo.TextFilter` | src/repository/contacts.py:62-67 | a missing or empty filter adds no condition; otherwise the column must match `%filter%` under `ILIKE` |
| `ContactRepo.MatchesQuery` | src/repository/contacts.py:60-67 | the WHERE clause: the caller owns the contact and every active filter matches |
| `ContactRepo.TextFilterIsSubstring` | src/repository/contacts.py:62-67 | a filter without wildcard characters admits exactly the rows whose column contains it, ignoring case; an empty filter admits all |
| `ContactRepo.UnderscoreFilterIsWildcard` | src/repository/contacts.py:63 | the name filter "a_c" admits "abc", which does not contain "a_c" |
| `ContactRepo.InBirthdayWindow` | src/repository/contacts.py:88-106 | within one month the day lies between start and end; across two months it is the tail of the start month or the head of the end month |
| `ContactRepo.BirthdayWindowIsArc` | src/repository/contacts.py:84-106 | for a window within one month or across two adjacent months (December to January included), the query condition is "(month, day) lies between start and end on the yearly cycle" |
| `ContactRepo.SetAttr` | src/repository/contacts.py:141 | one `setattr` gives the named column the value and leaves every other column and the owner as they were |
| `ContactRepo.ApplyAll` | src/repository/contacts.py:140-141 | the assignments applied in order never change the owner, and without an `id` item never change the id |
| `ContactRepo.PutItems` | src/repository/contacts.py:140 | the PUT body dumps seven items, `id` last and only there |
| `ContactRepo.FieldItem` | src/repository/contacts.py:160 | an unset PATCH field dumps no item; a set one dumps exactly one, carrying its value or None for null |
| `ContactRepo.PatchItems` | src/repository/contacts.py:160 | a PATCH body dumps at most six items and never an `id` |
| `ContactRepo.Patched` | src/repository/contacts.py:160-161 | an unset PATCH field keeps the column's value; a set one takes the sent value, or None for null |
| `ContactRepo.ApplyAllAppend` | src/repository/contacts.py:140-141 | applying two lists of assignments in turn is applying their concatenation |
| `ContactRepo.PutOverwritesAll` | src/repository/contacts.py:140-141 | the PUT assignments replace every field, `id` included, and keep the owner |
| `ContactRepo.PatchChangesOnlySetFields` | src/repository/contacts.py:160-161 | the PATCH assignments change exactly the fields the body sets (null included) and keep all others |
| `ContactRepo.CreateOutcome` | src/repository/contacts.py:30-32 | the insert succeeds exactly when no row has the serial's id or the body's email, and then yields the body's contact with the caller as owner |
| `ContactRepo.UpdateOutcome` | src/repository/contacts.py:138-144 | the update answers None exactly when the caller owns no contact with that id |
| `ContactRepo.PutStoresBody` | src/repository/contacts.py:138-144 | a successful PUT stores exactly the body's fields and id under the same owner |
| `ContactRepo.PutRejectsOnlyClashes` | src/repository/contacts.py:138-144 | a PUT on a found contact fails exactly when the new row clashes with another row's id or email |
| `ContactRepo.PatchStoresSetFields` | src/repository/contacts.py:158-164 | a successful PATCH keeps every unset column and takes every set one |
| `ContactRepo.PatchNullNameFails` | src/repository/contacts.py:158-164 | a PATCH sending a null name on a found contact fails the not-null constraint on `name` |
| `ContactRepo.ContactRepository.constructor` | src/repository/contacts.py:12-19 | the repository works on the given session |
| `ContactRepo.ContactRepository.GetContacts` | src/repository/contacts.py:37-71 | returns only the caller's contacts that pass every active filter: at most `limit` rows, skipping the first `skip` matches, in table order |
| `ContactRepo.ContactRepository.GetContactsForBirthdays` | src/repository/contacts.py:75-109 | returns exactly the caller's contacts whose birthday falls in the window |
| `ContactRepo.ContactRepository.GetContactById` | src/repository/contacts.py:111-124 | returns a contact only when both id and owner match, and None exactly when none does |
| `ContactRepo.ContactRepository.CreateContact` | src/repository/contacts.py:21-34 | appends and commits the new contact, or leaves the table unchanged with the transaction failed; the serial advances either way; the constraints hold afterwards |
| `ContactRepo.ContactRepository.UpdateContact` | src/repository/contacts.py:138-144 | applies each dumped item in order to the found contact and commits the result in its place; not found means no change and no commit; a failed commit changes nothing and leaves the transaction failed |
| `ContactRepo.ContactRepository.PutContact` | src/repository/contacts.py:126-144 | the update above with every field of the body, `id` included |
| `ContactRepo.ContactRepository.PatchContact` | src/repository/contacts.py:146-164 | the update above with only the fields the body sets |
| `ContactRepo.ContactRepository.DeleteContact` | src/repository/contacts.py:166-181 | removes and returns the caller's contact with that id and commits, or returns None and changes nothing |
| `ContactServices.HandleIntegrityError` | src/services/contacts.py:8-26 | every integrity error becomes an HTTP error without headers: 409 "A contact with this email already exists." exactly when the message contains "contacts_email_key", 400 "Data integrity error." otherwise |
| `ContactServices.Translate` | src/services/contacts.py:53-57 | repository results pass through unchanged; integrity errors are classified |
| `ContactServices.CreateErrorsAreContactWriteErrors` | src/repository/contacts.py:30-32 | an insert fails only on the pkey, the email index, or a not-null column |
| `ContactServices.UpdateErrorsAreContactWriteErrors` | src/repository/contacts.py:138-144 | an update fails only on the pkey, the email index, or a not-null column |
| `ContactServices.PkeyMessageOmitsEmailIndex` | src/services/contacts.py:17 | the pkey violation message does not contain "contacts_email_key" |
| `ContactServices.NotNullMessageOmitsEmailIndex` | src/services/contacts.py:17 | no not-null violation message on `contacts` contains "contacts_email_key" |
| `ContactServices.ConflictOnlyForDuplicateEmail` | src/services/contacts.py:17-26 | of the errors a contact write raises, exactly the duplicate email gives 409, and all the others give 400 |
| `ContactServices.CreateConflictIffEmailTaken` | src/services/contacts.py:53-57 | creating answers 409 exactly when the email is taken and the serial's id is free |
| `ContactServices.PatchNullNameIsBadRequest` | src/services/contacts.py:136-140 | a PATCH nulling the name of a found contact is answered 400 "Data integrity error." |
| `ContactServices.ContactService.constructor` | src/services/contacts.py:29-39 | the service's repository works on the given session |
| `ContactServices.ContactService.CreateContact` | src/services/contacts.py:42-57 | returns the repository's contact, or rolls back exactly once and answers the classified error; the session is usable afterwards; the contact table, commits and the serial move as in the repository, and the user table is unchanged |
| `ContactServices.ContactService.GetContacts` | src/services/contacts.py:60-75 | forwards (skip, limit, name, surname, email, user) as (user, skip, limit, name, surname, email) |
| `ContactServices.ContactService.GetContactsUpcomingBirthdays` | src/services/contacts.py:78-88 | returns exactly the caller's contacts in the birthday window |
| `ContactServices.ContactService.GetContact` | src/services/contacts.py:91-102 | a pass-through of the owner-checked lookup |
| `ContactServices.ContactService.PutContact` | src/services/contacts.py:105-121 | returns the repository's result, or rolls back exactly once and answers the classified error; the row is replaced and committed only on success; users and serials are unchanged |
| `ContactServices.ContactService.PatchContact` | src/services/contacts.py:124-140 | returns the repository's result, or rolls back exactly once and answers the classified error; the row is replaced and committed only on success; users and serials are unchanged |
| `ContactServices.ContactService.DeleteContact` | src/services/contacts.py:143-154 | returns the owner-checked lookup taken before the delete; when found, exactly that row is removed and one commit made; otherwise nothing changes; never a rollback |
| `AuthService.DecodeToken` | src/services/auth.py:95-97 | a token decodes exactly when its signature checks, it has no `exp` earlier than now, and its `sub` is absent or a string (the library's default subject check rejects a null one) |
| `AuthService.AccessClaims` | src/services/auth.py:63-68 | the access claims are the input claims with `exp = now + delta`; a missing or zero delta means 3600 seconds |
| `AuthService.AccessTokenLifetime` | src/services/auth.py:63-71 | an access token decodes to its claims up to its expiry instant and fails after it; one whose subject is null never decodes |
| `AuthService.CreateAccessToken` | src/services/auth.py:52-72 | under a sound codec the token decodes to the access claims |
| `AuthService.EmailClaims` | src/services/auth.py:164-166 | the email claims carry `iat = now` and `exp = now + 7 days` |
| `AuthService.CreateEmailToken` | src/services/auth.py:154-168 | under a sound codec the token decodes to the email claims |
| `AuthService.GetEmailFromToken` | src/services/auth.py:171-194 | a token that does not decode is 422 "Invalid email verification token", a null `sub` included; a string `sub` is returned; an absent `sub` is an uncaught KeyError |
| `AuthService.EmailTokenRoundTrip` | src/services/auth.py:154-194 | an email token gives back its address for seven days after issue and is a 422 afterwards |
| `AuthService.CredentialsError` | src/services/auth.py:87-91 | the credentials error is 401 "Could not validate credentials" with header `WWW-Authenticate: Bearer` |
| `AuthService.TokenSubject` | src/services/auth.py:93-102 | the token check yields the subject exactly when the token decodes with a string `sub`; a bad token, a null `sub` among them, is the 401; a missing `sub` is an uncaught KeyError |
| `AuthService.SnapshotOf` | src/services/auth.py:130-135 | the snapshot written back is the user's id, user name, email and avatar |
| `AuthService.CacheKeyInjective` | src/services/auth.py:105 | different user names never share a cache key |
| `AuthService.KeyValueStore.constructor` | src/services/auth.py:17 | a fresh client starts with an empty store and no commands sent |
| `AuthService.KeyValueStore.Get` | src/services/auth.py:105 | GET returns the stored value or None, or raises; it changes nothing |
| `AuthService.KeyValueStore.Set` | src/services/auth.py:138 | SET stores the value and clears the key's TTL, or raises and changes nothing |
| `AuthService.KeyValueStore.Expire` | src/services/auth.py:140 | EXPIRE sets the TTL of an existing key, or raises and changes nothing |
| `AuthService.CacheRead` | src/services/auth.py:104-109 | the value under the key, or None when the key is absent or the GET raised |
| `AuthService.IsMiss` | src/services/auth.py:113 | `if cached:` fails for None and for empty bytes |
| `AuthService.HitOutcome` | src/services/auth.py:113-124 | a hit answers a stored user whose id is the cached id, the unbound-local fault exactly when the cached object has no truthy id, and the 401 otherwise |
| `AuthService.MissWrites` | src/services/auth.py:129-142 | a miss for a found user answers that user, SETs the snapshot and then EXPIREs it for 900 seconds; a raising SET writes nothing more; a raising EXPIRE leaves the snapshot without a TTL |
| `AuthService.WriteBack` | src/services/auth.py:137-142 | the store afterwards holds, and has been sent, exactly what the miss writes say |
| `AuthService.ResolveSubject` | src/services/auth.py:104-151 | resolution answers a stored user or one of the 401 and the unbound-local fault, and always starts with the GET of "user:"+name |
| `AuthService.Resolve` | src/services/auth.py:74-151 | a failed token check sends nothing to the store and answers its error; any other answer is a stored user, the 401, or an uncaught fault |
| `AuthService.GetCurrentUser` | src/services/auth.py:74-151 | the method answers, leaves in the store, and sends to it exactly what the resolution function says |
| `AuthService.BadTokenTouchesNothing` | src/services/auth.py:87-102 | a token that fails to decode, or one with a null `sub`, is the 401 and sends no command to the store |
| `AuthService.GetFaultActsAsMiss` | src/services/auth.py:104-109 | a raising GET gives the same answer and the same later commands as a miss |
| `AuthService.HitLoadsById` | src/services/auth.py:113-121 | on a hit with a usable id the answer is the stored user with that id, or the 401 when there is none; nothing is written |
| `AuthService.MissPopulatesCache` | src/services/auth.py:125-142 | on a miss for an existing user the answer is that user and the cache then holds the snapshot with TTL 900; a raising SET changes neither the answer nor the store |
| `AuthService.MissForUnknownNameWritesNothing` | src/services/auth.py:125-142 | a miss for an unknown name is the 401 and writes nothing |
| `AuthService.StaleHitHasNoFallback` | src/services/auth.py:113-124 | a hit whose id names no user is the 401 even though the token's user name exists |
| `AuthService.FalsyCachedIdIsUnbound` | src/services/auth.py:119-124 | a cached object with an absent or zero id ends in the unbound-local fault |
| `AuthService.CoherentCacheIsTransparent` | src/services/auth.py:113-127 | over a coherent cache the answer is the same as with no cache at all |
| `AuthService.ResolveKeepsCoherent` | src/services/auth.py:125-142 | resolution keeps a coherent cache coherent |
| `AuthService.UserUpdatesKeepCoherent` | src/repository/users.py:83-100 | confirmation and avatar updates keep a coherent cache coherent |
| `AuthService.NewUserKeepsCoherent` | src/repository/users.py:65-71 | inserting a user keeps a coherent cache coherent |
| `AuthApi.BackgroundTasks.constructor` | src/api/auth.py:16 | a request starts with no queued tasks |
| `AuthApi.BackgroundTasks.AddTask` | src/api/auth.py:48-50 | a task is appended to the queue |
| `AuthApi.RegisterCheck` | src/api/auth.py:33-45 | a taken email gives 409 "User with such email already exists" (checked first); a taken name then gives 409 "User with this name already exists"; otherwise no error |
| `AuthApi.RegisterUser` | src/api/auth.py:14-52 | a rejected registration changes nothing (tables, serials, commits, rollbacks, tasks); an accepted one stores the new unconfirmed user with the hash of the password, advances the user serial, commits once, and queues exactly one confirmation email |
| `AuthApi.BadLogin` | src/api/auth.py:70-75 | the login failure is 401 "Incorrect login or password" with header `WWW-Authenticate: Bearer` |
| `AuthApi.LoginUser` | src/api/auth.py:56-83 | an unknown name and a wrong password give the same 401; "Email address not confirmed" only when the credentials pass; otherwise a bearer token |
| `AuthApi.LoginTokenNamesUser` | src/api/auth.py:82-83 | within its lifetime the login token's subject is the user's name |
| `AuthApi.LoginThenResolve` | src/api/auth.py:82-83 | within its lifetime a login token resolves, through a coherent cache, to the user who logged in |
| `AuthApi.ConfirmedEmail` | src/api/auth.py:87-109 | a bad token gives the token error; 400 "Verification error" exactly when the token's email is unknown; the already-confirmed message exactly when the user is confirmed, with nothing changed; "Email confirmed" exactly when the user was unconfirmed, who then is confirmed with one commit; serials and rollbacks never change |
| `AuthApi.ConfirmationIsWriteOnce` | src/api/auth.py:106-109 | after confirmation the user is confirmed, and confirming again changes nothing |
| `AuthApi.RequestEmail` | src/api/auth.py:113-139 | an unknown email is an attribute error on None; a confirmed user gets the already-confirmed message and nothing is queued; otherwise exactly one email is queued |
| `AuthApi.RegisterConfirmLogin` | src/api/auth.py:46-80 | a freshly registered user cannot log in before confirmation, and can log in with the registered password after it |

## Left out

- I/O and concurrency: async/await, connection pooling, and concurrent requests. Each request runs alone, so the registration race is not modelled (two requests passing the uniqueness checks together).
- `print` logging.
- Wall-clock reads: `now` (seconds since the epoch) and the birthday window's start and end (month, day) are parameters. How `today + days_limit` is computed in the calendar is not modelled.
- Time-based expiry of cache keys. The TTL is recorded but never counted down.
- bcrypt and the JWT library: they are function values. Their only assumed property is the round trip, and only in lemmas.
- Claim validation in the JWT library beyond `exp`: algorithm lists, `iat` and `nbf` type checks, and leeway (zero in the code).
- A `sub` claim of another non-string JSON type (a number, a list) is not modelled; the library rejects it as it rejects null.
- `EmailStr` syntax: it is an abstract predicate `isEmail`.
- The Gravatar lookup in `UserService.create_user`: its result is the `avatar` parameter.
- `UserService` (src/services/users.py) forwards to `UserRepository`, so the model calls the repository directly.
- Cloudinary upload, email sending, the rate limiter, the other routers, the health check, and configuration loading are not part of this model. `JWT_EXPIRATION_SECONDS` is its default, 3600.
- Database faults other than integrity errors are not modelled, nor the exceptions they raise. An exception inside the cache-hit `try` would also end in `user = None`.
- Rows come back in table order (no ORDER BY).
- `ILIKE` case folding is modelled as ASCII lower-casing.
- The cache value is abstracted to empty bytes, non-JSON, non-object JSON, or an object with `id` and snapshot fields. A truthy non-integer `id` is not modelled.
- `ContactRepo.ContactRepository.GetContacts`: the API bounds `skip >= 0` and `1 <= limit <= 100` belong to the router. The model takes `skip` and `limit` as naturals.
- `NotNullMessageOmitsEmailIndex`, `ConflictOnlyForDuplicateEmail` and `PatchNullNameIsBadRequest`: an integrity error's text is modelled as the server's primary message line only. The driver's text also carries a DETAIL line; for a not-null violation it lists the failing row's values. A contact whose text fields contain "contacts_email_key" would then make the service answer 409 instead of 400. These three members are stated for the first line only.
- `Models.UniqueViolation` and `Models.NotNullViolation`: the exception class prefix and the DETAIL line of the driver's text are not modelled.
- `RegisterUser`, `CreateUserOutcome` and `CreateOutcome`: column lengths are not modelled. `user_name` and the email columns are `String(50)` and `String(120)`, and no schema bound stops a longer value. The database then raises a DataError that nothing catches (a 500); the model stores the row.
- `ParseContactCreate`, `ParseContactPatch` and `ParseUserCreate`: `EmailStr` may normalise the address (for example, lower-casing its domain). The model keeps the address as sent, so two spellings of one address count as different emails.
