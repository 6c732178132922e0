# Donor-frontend API client layer, in Dafny

A model of the browser-side client layer of an organ/blood donation
platform, and proofs about it. This layer sits between the single-page
application and a REST backend. It has three parts.

- **Response handlers (`apiHandler`).** There are four separate copies:
  hospital, organ bank, donor and admin donor. Each turns a completed
  `fetch` into one of three results: the parsed JSON body, `null`, or a
  raised `Error` with a message.
  - On a non-ok response, the message comes from the body. The chain is
    `message || error || detail || (Array.isArray(errors) ? errors.join(', ') : default)`.
  - If the body does not parse, the hospital, organ-bank and donor copies
    use the raw body text instead. The admin copy keeps its own default.
- **Auth service.** `registerUser` and `loginUser` fall back to a local
  mock (`mockRegister`, `mockLogin`). `loginUser` also writes the single
  `localStorage` token slot, `logout` clears it and `getToken` reads it.
- **Small string rules.**
  - The base URL with its trailing slashes trimmed.
  - The `Authorization: Bearer` header.
  - The query strings that `getMyOrganRequests`, `getMyBloodRequests`,
    `getTurnaroundReport` and `getAuditLogs` build step by step with
    `URLSearchParams`.

Modules, one per concern:

| file | module | what it holds |
|---|---|---|
| `wrappers.dfy` | `Wrappers` | `Option` (`None` stands for JavaScript's `undefined`) |
| `js_strings.dfy` | `JsStrings` | decimal printing, `includes`, `replace(/\/+$/, '')` |
| `js_values.dfy` | `JsValues` | the `Json` datatype, truthiness, property access, `String(v)`, `join` |
| `http.dfy` | `Http` | `Response`, `Exchange` (response or transport error), the parser oracle, `Outcome` |
| `error_messages.dfy` | `ErrorMessages` | the status-line default and the message chain shared by the handlers |
| `search_params.dfy` | `SearchParams` | `URLSearchParams` as a class over an ordered `seq` of pairs |
| `local_storage.dfy` | `LocalStorage` | the `localStorage` token slot as a class with one field |
| `hospital_api.dfy` | `HospitalApi` | `API_BASE`, `authHeader`, the handler, and the four query builders |
| `organ_bank_api.dfy` | `OrganBankApi` | its handler copy, proved equal to the hospital one, and `getAuditLogs` |
| `donor_api.dfy` | `DonorApi` | the `allow404Null` handler with the `'Network error'` re-wrap |
| `donor_admin_api.dfy` | `DonorAdminApi` | the admin handler variant, `API_URL`, `updateDonor` |
| `auth_api.dfy` | `AuthApi` | `API_BASE_URL`, the mocks, `registerUser`, `loginUser`, `logout`, `getToken` |

Modelling choices:

- The transport is an input, not something the model performs. An
  `Exchange` is either `Completed(response)` or `TransportError(reason)`.
- `JSON.parse` (and `res.json()`) is a parameter `parse: string -> Option<Json>`.
- `res.ok` is derived from the status (200 to 299), as `fetch` defines it.
- A result is an `Outcome`: `Data(json)`, `Fail(message)`, `BadJson` or `ArgumentError`.
  - `null` is `Data(JNull)`.
  - `BadJson` is a `res.json()` that is returned without `await` and
    rejects. No `catch` of the layer sees that rejection, so it is neither
    logged nor re-wrapped.
  - `ArgumentError` is the rejection of `getMyOrganRequests` /
    `getMyBloodRequests` when their argument is `null`: destructuring it
    throws before any request is sent.
- The `console.error` line of a handler is the `logged` part of `Handled`.

**Registration falls back on every non-ok status and every transport error.** `registerUser` falls back to
`mockRegister` on every non-ok status, not only on 404. The `throw` at
src/services/authApi.js:50 is inside the `try` whose `catch`
(src/services/authApi.js:53-56) returns the mock. So a 500 whose body is
`{"message":"email taken"}` still resolves to the mock payload (see
`AuthApi.RegistrationErrorIsMasked`), just as every login failure does. The one path that does not fall
back is an ok response whose body is not JSON: `return res.json()` at
src/services/authApi.js:52 is not awaited, so that rejection escapes the
`catch`.

## Model

| member | source | states |
|---|---|---|
| `JsStrings.TrimTrailingSlashes` | src/modules/hospital/services/hospitalApi.js:6 | `replace(/\/+$/, '')` gives a prefix of the input that does not end in `/`; everything removed is slashes |
| `JsStrings.TrimIsUnique` | src/modules/hospital/services/hospitalApi.js:6 | for any string not ending in `/` followed by any run of slashes, trimming gives back exactly that string |
| `JsStrings.TrimAbsorbsSlashes` | src/modules/organ-bank/services/organBankApi.js:6 | appending any number of slashes to a trimmed base and trimming again gives back the same base |
| `JsStrings.IncludesMeansOccurrence` | src/modules/hospital/services/hospitalApi.js:37-38 | `ct.includes(sub)` holds exactly when `sub` occurs at some position of `ct` |
| `JsValues.Or` | src/services/authApi.js:17-18 | `v` or-else `fallback` is `v` when truthy and `fallback` otherwise |
| `Http.ReadJson` | src/modules/hospital/services/hospitalApi.js:38 | a returned `res.json()` gives the parsed body exactly when it parses, and otherwise a rejection that is never an `Error` of the handler |
| `ErrorMessages.StatusLine` | src/modules/hospital/services/hospitalApi.js:21 | the default message starts with `HTTP ` |
| `ErrorMessages.RawTextMessage` | src/modules/hospital/services/hospitalApi.js:20-31 | an empty body gives the status-line default; a non-empty body that does not parse, or parses to `null`, gives the raw text |
| `ErrorMessages.BodyMessageFollowsRules` | src/modules/hospital/services/hospitalApi.js:24-28 | the or-chain equals an ordered list of extraction rules (truthy `message`, `error`, `detail`, then `errors` joined with `", "`), where the first rule that applies wins |
| `ErrorMessages.NoFieldsGiveFallback` | src/modules/hospital/services/hospitalApi.js:24-28 | a body with no truthy `message`/`error`/`detail` and no `errors` array gives the default |
| `ErrorMessages.BodyMessage` | src/modules/hospital/services/hospitalApi.js:24-28 | the message is a truthy `message` whenever there is one, and otherwise one of `error`, `detail`, the `errors` array joined with `", "`, or the default; its full order is given by `BodyMessageFollowsRules` |
| `SearchParams.Lookup` | src/modules/hospital/services/hospitalApi.js:199-201 | the value a reader of the built query sees for a name (the source itself never calls `params.get`): absent exactly when no entry has that name |
| `SearchParams.LookupAppend` | src/modules/hospital/services/hospitalApi.js:61-63 | how a reader of a query built by successive appends sees it: a name in `a + b` is found in `a` if `a` has it, and otherwise in `b` |
| `SearchParams.SetEntryMeaning` | src/modules/hospital/services/hospitalApi.js:191-192 | after `set`, exactly one entry has the name, `get` gives the new value, the other entries keep their order, and on a list without the name the pair is appended |
| `SearchParams.SetEntry` | src/modules/hospital/services/hospitalApi.js:191-192 | after `set`, `get(name)` is the new value, and on a list without the name the pair goes at the end |
| `SearchParams.Params.Empty` | src/modules/hospital/services/hospitalApi.js:190 | `new URLSearchParams()` holds no entries |
| `SearchParams.Params.FromRecord` | src/modules/hospital/services/hospitalApi.js:60 | `new URLSearchParams({ page, size })` holds one entry per property, in order |
| `SearchParams.Params.Append` | src/modules/hospital/services/hospitalApi.js:61 | `append` adds the pair at the end and changes nothing else |
| `SearchParams.Params.Set` | src/modules/hospital/services/hospitalApi.js:191 | `set` replaces the entries as `SetEntry` describes |
| `LocalStorage.TokenSlot.SetItem` | src/services/authApi.js:70 | `setItem` overwrites the stored token unconditionally |
| `LocalStorage.TokenSlot.RemoveItem` | src/services/authApi.js:96 | `removeItem` leaves the slot empty |
| `LocalStorage.TokenSlot.GetItem` | src/services/authApi.js:99 | `getItem` returns exactly what is stored, or nothing |
| `HospitalApi.ApiBase` | src/modules/hospital/services/hospitalApi.js:6 | `API_BASE` does not end in `/`; it is a prefix of the env value (or `''`) followed only by slashes |
| `HospitalApi.AuthHeader` | src/modules/hospital/services/hospitalApi.js:9-12 | the header map is exactly `{Authorization: "Bearer " + t}` when a non-empty token `t` is stored, and empty when the token is absent or `""` |
| `HospitalApi.ApiHandler` | src/modules/hospital/services/hospitalApi.js:15-43 | a non-ok response or rejected `fetch` always raises, and is logged once with the same message; an ok 204 is `null` whatever the content type; an ok non-204 is the parsed body if and only if the content type contains `application/json`, and `null` otherwise |
| `HospitalApi.MessagePriority` | src/modules/hospital/services/hospitalApi.js:19-28 | for a body that parses to an object, the message is the first truthy of `message`, `error`, `detail`, otherwise `errors` joined with `", "` if it is an array, otherwise `HTTP {status} {statusText}` |
| `HospitalApi.EmptyErrorsGiveEmptyMessage` | src/modules/hospital/services/hospitalApi.js:28 | a body `{"errors": []}` raises the empty message, not the status line |
| `HospitalApi.RawTextFallback` | src/modules/hospital/services/hospitalApi.js:29-31 | a non-empty body that does not parse, or parses to JSON `null`, is itself the message |
| `HospitalApi.EmptyBodyGivesStatusLine` | src/modules/hospital/services/hospitalApi.js:21-23 | an empty body raises `HTTP {status} {statusText}` |
| `HospitalApi.MyRequestsFilter` | src/modules/hospital/services/hospitalApi.js:59 | the argument `{ page = 0, size = 10, status, city, state } = {}`: `undefined` takes the default, so every property is absent; `null` throws; otherwise each field is the argument's property |
| `HospitalApi.IfTruthy` | src/modules/hospital/services/hospitalApi.js:61-63 | `if (v) params.append(name, v)` on a list without `name` adds the entry exactly when `v` is truthy |
| `HospitalApi.IfPresent` | src/modules/hospital/services/hospitalApi.js:201 | `if (v != null) params.set(name, String(v))` adds the entry exactly when `v` is neither `null` nor `undefined` |
| `HospitalApi.MyRequestsParams` | src/modules/hospital/services/hospitalApi.js:60-63 | the query has between two and five entries and starts with `page`, then `size` |
| `HospitalApi.MyRequestsParamsOrder` | src/modules/hospital/services/hospitalApi.js:59-63 | the query has `page` and `size` first (defaults 0 and 10), then `status`, `city` and `state` in that order, each present only when truthy |
| `HospitalApi.MyRequestsParamsFilters` | src/modules/hospital/services/hospitalApi.js:61-63 | each of `status`, `city` and `state` is sent as `String(v)` exactly when truthy |
| `HospitalApi.BuildMyRequestsQuery` | src/modules/hospital/services/hospitalApi.js:60-63 | the in-place `URLSearchParams` construction gives the query stated by the two lemmas above |
| `HospitalApi.MyRequestsOutcome` | src/modules/hospital/services/hospitalApi.js:64-66 | bypassing `apiHandler`: any non-ok status raises the fixed message whatever the body; an ok response is `res.json()`; a rejected `fetch` propagates |
| `HospitalApi.NoContentDiffersFromHandler` | src/modules/hospital/services/hospitalApi.js:66 | an ok 204 with an empty body rejects in the bypass, but is `null` through `apiHandler` |
| `HospitalApi.GetMyOrganRequests` | src/modules/hospital/services/hospitalApi.js:59-67 | a `null` argument rejects before any request; otherwise the request goes to `/organ-requests/my` with the built query and the bearer header, and a non-ok status raises `'Failed to fetch my organ requests'` |
| `HospitalApi.GetMyBloodRequests` | src/modules/hospital/services/hospitalApi.js:98-106 | a `null` argument rejects before any request; otherwise the request goes to `/blood-requests/my` with the built query and the bearer header, and a non-ok status raises `'Failed to fetch my blood requests'` |
| `HospitalApi.TurnaroundParamsMeaning` | src/modules/hospital/services/hospitalApi.js:189-192 | `from` and `to` are each sent exactly when truthy, `from` first |
| `HospitalApi.TurnaroundParams` | src/modules/hospital/services/hospitalApi.js:190-192 | the query holds at most two entries, named `from` or `to` |
| `HospitalApi.BuildTurnaroundQuery` | src/modules/hospital/services/hospitalApi.js:189-192 | a `null` or `undefined` argument throws before any query is built; otherwise the in-place construction with `set` gives the query of its `from` and `to` |
| `HospitalApi.AuditParamsMeaning` | src/modules/hospital/services/hospitalApi.js:198-201 | `entityType` is sent exactly when truthy; `entityId` is sent exactly when it is neither `null` nor `undefined`, so `0` is kept and an empty type is dropped |
| `HospitalApi.AuditParams` | src/modules/hospital/services/hospitalApi.js:199-201 | the query holds at most two entries, named `entityType` or `entityId` |
| `HospitalApi.BuildAuditQuery` | src/modules/hospital/services/hospitalApi.js:198-201 | a `null` or `undefined` argument throws before any query is built; otherwise the in-place construction gives the query of its `entityType` and `entityId` |
| `OrganBankApi.ApiBase` | src/modules/organ-bank/services/organBankApi.js:6 | `API_BASE` has no trailing slash, is the env value minus only slashes, and trimming it again changes nothing |
| `OrganBankApi.ApiHandler` | src/modules/organ-bank/services/organBankApi.js:8-36 | non-ok raises `RawTextMessage` of the body (priority chain, raw text, or status line); ok 204 is `null`; ok non-204 is the parsed body exactly when the content type says JSON; every failure is logged once and re-raised unchanged |
| `OrganBankApi.SameAsHospitalHandler` | src/modules/organ-bank/services/organBankApi.js:8-36 | the organ-bank copy and the hospital copy agree on every exchange |
| `OrganBankApi.BuildAuditQuery` | src/modules/organ-bank/services/organBankApi.js:106-110 | a `null` or `undefined` argument throws; otherwise the same query as the hospital rule: `entityId = 0` kept, empty `entityType` dropped |
| `DonorApi.OrNetworkError` | src/modules/donor/services/donorApi.js:38 | the re-wrapped message is never empty and keeps a non-empty message |
| `DonorApi.Rewrap` | src/modules/donor/services/donorApi.js:37-38 | the re-wrap keeps success values and non-empty messages as they are, and every failure it gives has a non-empty message |
| `DonorApi.ApiHandler` | src/modules/donor/services/donorApi.js:7-40 | with `allow404Null`, 400 and 404 are `null` for any body, checked before `ok`; without it they raise; every raised message is non-empty; a transport error raises its reason or `'Network error'`; 204 and content-type rules as in the hospital copy |
| `DonorApi.DefaultAgreesWithHospital` | src/modules/donor/services/donorApi.js:16-38 | without the option, the donor handler is the hospital handler followed by the `'Network error'` re-wrap: same priority chain and fallbacks |
| `DonorApi.OptionOnlyAffectsAbsence` | src/modules/donor/services/donorApi.js:12-14 | the option changes the result only for statuses 400 and 404, which then give `null` instead of a failure |
| `DonorApi.EmptyErrorsGiveNetworkError` | src/modules/donor/services/donorApi.js:17-38 | a body `{"errors": []}` surfaces as `'Network error'` |
| `DonorApi.CallOutcome` | src/modules/donor/services/donorApi.js:43-94 | only `getMyProfile` turns 400/404 into `null`; every other caller raises on them |
| `DonorApi.AllowsAbsence` | src/modules/donor/services/donorApi.js:43-44 | only `getMyProfile` passes `allow404Null: true` |
| `DonorAdminApi.ApiUrl` | src/modules/admin/services/donorAdminApi.js:6-7 | `API_URL` is a slash-trimmed prefix of the env value followed by `/donor-profiles` |
| `DonorAdminApi.DefaultMessage` | src/modules/admin/services/donorAdminApi.js:18 | the default message starts with `Request failed with status: ` |
| `DonorAdminApi.BodyOrDefault` | src/modules/admin/services/donorAdminApi.js:18-28 | a body that does not parse, or is `null`, keeps the default message |
| `DonorAdminApi.ApiHandler` | src/modules/admin/services/donorAdminApi.js:13-41 | non-ok raises and is logged and re-raised unchanged; there is no 204 rule, so an ok response is the parsed body exactly when the content type says JSON, else `null` |
| `DonorAdminApi.NoRawTextFallback` | src/modules/admin/services/donorAdminApi.js:18-29 | an unparseable or `null` body raises `Request failed with status: {status}`; the raw text is never used |
| `DonorAdminApi.MessagePriority` | src/modules/admin/services/donorAdminApi.js:21-25 | a parseable body gives `message`, `error`, `detail`, the joined `errors`, then the default; a field-less object raises the default |
| `DonorAdminApi.NoContentIsReadAsJson` | src/modules/admin/services/donorAdminApi.js:32-36 | an ok 204 with an empty JSON-typed body rejects here, but the hospital copy gives `null` |
| `DonorAdminApi.AgreesWithHospitalOnSuccess` | src/modules/admin/services/donorAdminApi.js:32-36 | on every ok non-204 response the admin and hospital copies agree |
| `DonorAdminApi.UpdateDonorRequest` | src/modules/admin/services/donorAdminApi.js:64-72 | the body is every own property except `id`, with the same values, and `id` goes only into the path; `null` or `undefined` data throws before any request |
| `DonorAdminApi.OwnProperties` | src/modules/admin/services/donorAdminApi.js:65 | what object rest copies: an object's own fields; nothing for `null`, booleans and numbers; for an array every element, and for a string every one-character string, under its decimal index, and no other key |
| `JsStrings.NatToStringInjective` | src/modules/admin/services/donorAdminApi.js:65 | distinct indices print as distinct decimal keys, so no element of an array or string overwrites another |
| `DonorAdminApi.UpdateDonorRoundTrip` | src/modules/admin/services/donorAdminApi.js:64-72 | putting `id` back into the body gives the original object |
| `AuthApi.ApiBaseUrl` | src/services/authApi.js:6-7 | `API_BASE_URL` is the slash-trimmed root followed by `/auth` |
| `AuthApi.MockRegister` | src/services/authApi.js:13-20 | `id = 1`; `name` and `email` come from the input when truthy, else `'User'` and `'user@example.com'` |
| `AuthApi.MockLogin` | src/services/authApi.js:22-30 | `id = 1`, `name = 'User'`, `token = 'dev-token'`, and the given email when truthy, else `'user@example.com'` |
| `AuthApi.ThrownMessage` | src/services/authApi.js:42-50 | the message thrown for a non-404 failure: the default for an empty body, the raw text for an unparseable or `null` body |
| `AuthApi.RegisterResult` | src/services/authApi.js:32-57 | `registerUser` never raises an `Error` of its own: 404, any other non-ok status and a transport error all give the `mockRegister` payload; an ok response gives `res.json()`, which rejects exactly when the ok body is not JSON, because it is returned without `await` |
| `AuthApi.RegisterUser` | src/services/authApi.js:32-57 | the control flow of `registerUser`, with the `throw` caught by its own `catch`, resolves to `RegisterResult`; it takes no token slot, so it cannot change the stored token |
| `AuthApi.LoginResult` | src/services/authApi.js:59-92 | on any failure (404, other non-ok, transport error, or an unparseable ok body) `loginUser` returns the `mockLogin` payload; otherwise the parsed body |
| `AuthApi.LoginToken` | src/services/authApi.js:67-91 | the token becomes `'dev-token'` whenever the mock is used; on a real success it becomes `data.token` when that is truthy, and otherwise stays as it was |
| `AuthApi.LoginUser` | src/services/authApi.js:59-92 | the control flow of `loginUser` returns `LoginResult` and leaves `LoginToken` in the slot |
| `AuthApi.Logout` | src/services/authApi.js:95-97 | the slot is empty afterwards |
| `AuthApi.GetToken` | src/services/authApi.js:99 | returns exactly the stored value |
| `AuthApi.LoginFailuresAllFallBack` | src/services/authApi.js:67-91 | a 404, any other non-ok status and a transport error all give the same mock payload, and store `'dev-token'` over any earlier token |
| `AuthApi.RegistrationErrorIsMasked` | src/services/authApi.js:40-56 | a 500 with `{"message":"email taken"}` throws that message, which is caught, and the mock is returned |
| `AuthApi.LoginWithoutTokenKeepsPrior` | src/services/authApi.js:84-85 | an ok login whose payload has no truthy `token` leaves the stored token unchanged |
| `AuthApi.LogoutThenGetToken` | src/services/authApi.js:95-99 | after `logout`, `getToken` gives nothing |

## Left out

- The transport (`fetch`, the axios instance in `src/services/http.js`). A call's exchange is an input: a response, or a transport error carrying its message.
- `async`/`await` scheduling, the 200 ms `fakeWait` in the auth mocks, and races on the token slot between concurrent logins. These are timing and concurrency, not logic.
- Real JSON parsing and serialisation. `parse` is an oracle. Numbers are integers only, so fractional numbers and their printing are not modelled.
- JsValues.ToString: a number prints as plain decimal digits. JavaScript prints `1e+21` for 10^21 and above, and `JSON.parse` rounds integers above 2^53. Neither is modelled.
- DonorAdminApi.UpdateDonorRequest: a JSON object is a `map`, so property order is lost, and the key order that `JSON.stringify` sends is not stated.
- HospitalApi.BuildTurnaroundQuery and HospitalApi.BuildAuditQuery (and OrganBankApi.BuildAuditQuery): a `null` or `undefined` argument is modelled as "no query is built". The synchronous `TypeError` and its message are not modelled, and neither is the difference between that throw and the rejection of the `async` `getMyOrganRequests` / `getMyBloodRequests` (there a `null` argument gives `ArgumentError`, while these builders give no query at all).
- `URLSearchParams.toString()` and percent-encoding (`encodeURIComponent`). A query is the ordered list of its name/value pairs.
- A `res.text()` that rejects while the body is read. Only a complete body text is modelled.
- The request functions beyond the query rules above (`getDonors`, `createOrganRequest`, `acceptMatch` and the rest). Each only builds a URL, method and body, and hands the exchange to its module's handler.
- `process.env` loading. The `REACT_APP_API_URL` value is a parameter, `None` when unset.
- HospitalApi.ApiHandler: the logged entry is always the error's message. When that message is empty, the source logs the `Error` object itself instead.
- HospitalApi.AuthHeader: the key `'token'` is taken to be the same slot as the auth service's `TOKEN_KEY`. Other storage keys are not modelled.
- DonorAdminApi.UpdateDonorRequest: only objects, arrays and strings have own properties here. Getters, symbols and the prototype chain are not modelled.
