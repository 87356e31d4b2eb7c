# umpack-express authorization core, in Dafny

This project models the request-authorization logic of `umpack.js`, the
Express router of umpack-express, an identity-and-access layer.

- **Token choice and decoding** (`decodeRequestToken`). A request's token is the
  `authorization` header or, failing that, a named cookie, read with
  JavaScript truthiness. A missing token is rejected with `JWT_NOT_EXISTS`.
  Otherwise the JSON Web Token verifier runs, and its failures become
  `JWT_TOKEN_EXPIRED` (expiry errors) or `INVALID_JWT` (everything else).
  The verifier is an oracle `string -> Verification`.
- **The `isAuthorized` middleware**, as a per-request state machine:
  `Start -> TokenChosen -> TokenDecoded -> PolicyChecked -> (DeviceChecked) -> Authorized | Rejected`.
  The claims are renamed to `{userName, roles, deviceToken}`. The role check
  always runs. The device check runs only when device control is configured,
  and then both checks must pass. The end state becomes effects:
  - on success, a log entry and one call of `next`;
  - on a typed failure (truthy `internalStatus`), a response with the error's
    own status and `{message, internalStatus}`;
  - on an untyped failure, a 500 response whose body holds only `message`.

  `checkRole` and `checkDevice` are opaque functions that return `Pass` or
  `Fail(error)`. The state machine is proved equal to a plain sequential
  composition of the same steps (`Pipeline`).
- **`getUserRolesFromRequest` / `getUserNameFromRequest`**: claim projections
  built on the same decoding.
- **`PUT /metadata/:key`**: a class holding each user's stored metadata. The
  route decodes the token, decodes it again while reading the caller's
  metadata, treats a null object as `{}`, sets one key and writes the object
  back. A rejection at any of these steps is reported and changes nothing
  (for the write, this is assumed of the user interactor).
  Otherwise every other key and every other user keeps its value. The key
  `__proto__` adds no own key to an object that lacks one, and overwrites it in
  an object that has it, as in JavaScript.
- **`init` and `POST /initialization`**: the result always says
  `success: true`. It carries `password` only when a default password was
  produced and its plain text is non-empty.

Files: `wrappers.dfy` (Option, Result), `http.dfy` (request, error and
response shapes, truthiness), `tokens.dfy`, `authorization.dfy`,
`metadata.dfy`, `initialization.dfy`.

## Model

| member | source | states |
|---|---|---|
| Tokens.ChooseToken | umpack.js:407-412 | A non-empty `authorization` header is the token whatever the cookies hold; otherwise the token is the named cookie exactly when that cookie is present and non-empty; a chosen token is never empty |
| Tokens.ClassifyFailure | umpack.js:415-421 | A verifier failure becomes `JWT_TOKEN_EXPIRED` exactly when it is an expiry error and `INVALID_JWT` exactly when it is any other error |
| Tokens.DecodeRequestToken | umpack.js:403-430 | Rejects with `JWT_NOT_EXISTS` iff no token was found; succeeds iff a token was found and the verifier accepts it, yielding the verifier's claims; rejects with `JWT_TOKEN_EXPIRED` iff the verifier failed with an expiry error |
| Tokens.HeaderIgnoresCookies | umpack.js:407-408 | With a non-empty header, replacing all cookies does not change the decoding, and the result is never `JWT_NOT_EXISTS` |
| Tokens.MissingTokenIgnoresVerifier | umpack.js:408-412 | With no header and no non-empty cookie, every verifier yields the same `JWT_NOT_EXISTS` rejection |
| Tokens.UserRolesFromRequest | umpack.js:527-536 | Succeeds iff decoding succeeds, with exactly the `user` and `roles` claims; otherwise carries the decoding error |
| Tokens.UserNameFromRequest | umpack.js:538-543 | Succeeds iff decoding succeeds, with exactly the `user` claim; otherwise carries the decoding error |
| Authorization.Step | umpack.js:434-457 | Each transition of the middleware moves strictly forward in the stage order |
| Authorization.Trace | umpack.js:434-466 | The stages a request visits: starts at the given stage, ends at Authorized or Rejected, and each stage follows from the previous one by one transition |
| Authorization.TraceAdvances | umpack.js:434-466 | Along a trace stages never repeat or go back: every later stage is strictly further along |
| Authorization.Outcome | umpack.js:434-459 | Every request ends authorized or rejected |
| Authorization.FromStart | umpack.js:434-443 | From Start the request is rejected with the API error of a decoding failure, or goes on from TokenDecoded with the identity built from the decoded claims |
| Authorization.FromTokenDecoded | umpack.js:444-450 | From TokenDecoded a failed role check rejects with the role check's error; a passed one goes on from PolicyChecked |
| Authorization.FromPolicyChecked | umpack.js:448-457 | From PolicyChecked the request is authorized unless device control is on and the device check fails, in which case it is rejected with that error |
| Authorization.OutcomeIsPipeline | umpack.js:434-459 | The state machine ends exactly where the sequential composition decode → role check → (device check) ends |
| Authorization.AuthorizedIffChecksPass | umpack.js:444-457 | A request is authorized iff its token decodes, the role check passes and, with device control on, the device check passes |
| Authorization.DecodeFailureRejects | umpack.js:434-443 | A decoding failure rejects the request with the API error for that failure |
| Authorization.MissingTokenSkipsVerifier | umpack.js:408-414 | Without a token the request goes straight from Start to the `JWT_NOT_EXISTS` rejection, never reaching the stage that calls the verifier, and any verifier gives the same trace |
| Authorization.StepIgnoresDevice | umpack.js:446-450 | With device control off no transition consults the device check or enters DeviceChecked |
| Authorization.TraceIgnoresDevice | umpack.js:446-450 | With device control off the whole trace is the same for every device check and contains no DeviceChecked stage |
| Authorization.DeviceControlOff | umpack.js:446-450 | With device control off the outcome equals the role check's outcome, and the device check is neither visited nor able to change the trace |
| Authorization.DeviceControlOn | umpack.js:452-457 | With device control on the request is authorized iff both checks pass; a rejection carries the error of a check that failed |
| Authorization.DecodedIdentity | umpack.js:435-441 | A decoded token yields the identity `userName = user`, `roles = roles`, `deviceToken = device`, and getUserRolesFromRequest reports the same user and roles |
| Authorization.ErrorResponse | umpack.js:468-483 | An untyped error gets status 500 and a body with only its message; a typed error gets its own status and its message and internal status; the internal status appears iff the error is typed |
| Authorization.Respond | umpack.js:460-483 | `next` is called once on success and never on failure; no response is sent on success and exactly the error's response on failure |
| Authorization.IsAuthorized | umpack.js:432-484 | Every request produces exactly one of: one call of `next`, or one response |
| Authorization.NextOrOneResponse | umpack.js:460-483 | `next` is called iff all required checks pass, and then no response is sent; otherwise exactly one response is sent |
| Metadata.WithKey | umpack.js:273-277 | The written object has the stored keys plus `key`, and `key` maps to the new value; for `__proto__` on an object without an own `__proto__`, which a JavaScript assignment does not store as an own key, it is the stored object unchanged, and an own `__proto__` is overwritten like any other key; every other key keeps its stored value; null metadata counts as `{}` |
| Metadata.WithKeyProto | umpack.js:277 | `{"__proto__": 1}` becomes `{"__proto__": 2}` when `__proto__` is set to 2, and an object without an own `__proto__` is left as it was |
| Metadata.WithKeyLastWriteWins | umpack.js:277 | Setting a key twice keeps only the second value, and repeating a write changes nothing |
| Metadata.UserMetadataStore.GetUserMetaData | umpack.js:500-502 | Rejects with the interactor's error when it fails; otherwise reads the stored metadata of a user, None standing for null |
| Metadata.UserMetadataStore.UpdateUserMetaData | umpack.js:496-498 | Rejects with the interactor's error when it fails, and then changes nothing (assumed of the interactor; see the `PutMetadataKey` line under "## Left out"); otherwise replaces one user's stored metadata and leaves every other user's as it was |
| Metadata.UserMetadataStore.PutMetadataKey | umpack.js:266-293 | Any rejection (the route's decode, the second decode in getUserMetaDataByRequest, the read, the write) is reported in that order and leaves the store unchanged; otherwise only the caller's metadata changes, to the object read (or `{}`) with `key` set to `value`, and the reply names the key |
| Metadata.PutThenRead | umpack.js:273-279 | After an update nobody rejected, the caller's metadata holds the new value under `key` (and is the stored object unchanged for `__proto__` when that object has no own `__proto__`), and another user's metadata is unchanged |
| Initialization.InitPasswordText | umpack.js:552-556 | init resolves with no password text iff no password was produced, and otherwise with its plain text |
| Initialization.InitializationResult | umpack.js:387-397 | The result always has `success: true`; it has `password` iff a password was produced with non-empty plain text, and then that text; it has no other fields |

## Left out

- Express routing, `sendPromiseResult` and the `{success: true, ...}` wrappers of the other routes: transport plumbing. So are `handleOptions` and the database connection.
- JSON Web Token signature and expiry checking (the `jsonwebtoken` library): an oracle `verify` stands for it. So the model does not check the signature and does not read a clock.
- Cookie-header parsing (the `cookie` library): the request carries the parsed cookies as a map. An absent `cookie` header is the empty map.
- `checkRole` and `checkDevice` are opaque functions. URL-pattern matching, role and action resolution, and device lookup live in `urlMatch`, `roleInteractor` and `deviceInteractor`, which are not part of this model. Neither are `credentialsInteractor` and `userInteractor`.
- Authorization.Step: the two checks run in sequence, role check first. `isAuthorized` starts both together with `Promise.all`, so with device control on the device check is also called after a failed role check. When both fail, the model reports the role check's error, while `isAuthorized` reports whichever rejects first. DeviceControlOn therefore states only that the reported error is one of the failing checks' errors.
- Authorization.Respond: request logging (`requestLogger`) appears only as effect records in the order `isAuthorized` calls it. The logger's own behaviour is not modelled.
- Authorization.IsAuthorized: assumes `next()` returns normally. If a downstream handler threw synchronously inside `next`, the catch handler of `isAuthorized` would also send a 500 response. That path is not modelled. It also promises one response for an error whose `responseStatus` Node refuses to write (see the `Http.Error` line).
- Http.Error: `responseStatus` is always a number, and every number is taken as a status Node will write. A typed error with no `responseStatus`, or with one outside 100-999, makes `res.status(...).send(...)` throw inside the catch handler; the rejection then only reaches the `unhandledRejection` hook and no response is sent. That case is not modelled, so `Authorization.IsAuthorized` promises one response for it. Every rejection of a check is also taken to be such an error record. A check that rejects with `undefined` or `null` makes reading `err.internalStatus` throw in the catch handler, so no response is sent. A check that rejects with a string gets a 500 response whose body is `{}`. Neither case is modelled.
- The numeric codes and messages of the API error enumeration (`apiErrorsEnum`) are not part of this model. `Config.apiErrors` supplies them.
- Tokens.Claims: `user` and `roles` are always present (`device` is optional). A signed payload that lacks them, or is a plain string, is not modelled.
- Metadata.UserMetadataStore.PutMetadataKey: the user interactor is not part of this model, so whether `getUserMetaDataByUserName` or `updateUserMetaData` rejects (a user it does not hold, a storage error) is an input, `readFailure` and `writeFailure`. When neither rejects, a user name the store does not hold reads as null metadata and the write records an entry for it; that behaviour of the interactor is assumed, not taken from its code. So is that a rejected `updateUserMetaData` stored nothing, which is why the model leaves the store unchanged after a write failure. The two decodes use two verifier oracles, because the verifier reads the clock. Stored metadata that is a primitive rather than an object is not modelled. The update replaces a map value instead of mutating the fetched object in place, so aliasing of that object is not modelled.
- Metadata.WithKey: for the key `__proto__` on an object without an own `__proto__`, the model stores no own key, as the JavaScript assignment does. When the value is an object, the assignment also replaces the object's prototype. That change is not modelled, because only own keys are written back.
- `PUT /metadata`, `GET /metadata`, `getFullUserObject`, `filterUsersByMetaData` and the other user, role, device and credential routes only forward to interactors that are not part of this model.
- `initWithFullAccess` (umpack.js:560-573) ends with the same password projection as `init`, which `Initialization.InitPasswordText` models. Database seeding by `initAndSaveDefaultUser`, `initAndSaveDefaultRole` and `initUserDevice` is not modelled, and neither is the concurrency of `Promise.join`.
- The `unhandledRejection` hook (umpack.js:27-29) only logs.
