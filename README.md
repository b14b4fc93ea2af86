# Auth demo client: a Dafny model

This project models the logic of a small web client. The client has login
and register forms, a "who am I" view, a profile-image uploader and an avatar.
All of them talk to a backend over HTTP and JSON. The model covers four parts:

- **Token store and request wrapper** (`src/lib/auth.ts`). `auth` keeps one
  bearer token under the storage key `accessToken`. `api` builds the outgoing
  headers: the `Content-Type: application/json` default, then the caller's
  headers, then `Authorization: Bearer <token>` when a token is held. It turns
  a failed response into one `Error` (`message || error || "Request failed"`)
  and turns a successful one into "no content" (empty text) or the parsed JSON.
  Module `Auth`: the class `TokenStore`, the method `Api`, and the functions
  that specify `Api` (`OutgoingHeaders`, `FailureMessage`, `Settle`).
- **Upload state machine** (`src/components/ProfileUploader.tsx`). It checks
  a file's type first, then its size against 5 MiB with a strict bound. It
  has clear and upload transitions over `file`, `preview`, `busy` and `error`.
  Module `ProfileUploader`: the class `Uploader`.
- **Authentication flows** (`src/App.tsx`). These are the start-up probe,
  login, register and logout, as transitions over the stored token and the
  `me` and `error` state, plus the classifier `getErrorMessage`. Module `App`:
  the class `AuthApp`, the predicate `LoginEffect` and `GetErrorMessage`.
- **Avatar** (`src/components/Avatar.tsx`). The letter falls back from
  `fallbackText` to `alt` to `"?"`, after trimming. The title uses no trimming.
  The view is an image exactly when `src` is non-empty. Module `Avatar`, with
  pure functions.

Module `JsValues` holds the JavaScript values the client handles. That is
parsed JSON, with truthiness, property lookup and `String()` conversion
(which `new Error(x)` and `localStorage.setItem` apply). It also holds the
values a `catch` can receive and the browser's `File`. Module `Wrappers`
holds `Option`, which stands for `null`/`undefined`.

The environment is one value `Host`:

- `server` gives the exchange a request meets, either a response (`ok` flag and
  body text) or a network failure.
- `parse` is `JSON.parse`, which returns a value or throws a `SyntaxError`.
- `typeError(v, key)` is the engine's text for the `TypeError` thrown when
  property `key` of `v` is read and `v` is `undefined` (an empty reply) or
  `null`. It depends on both, because the engine names the key and words the
  two cases differently.
- `conversionError` is the engine's text for the `TypeError` thrown when a
  value with no callable conversion method is converted to text.

Every operation returns the requests it sent. Contracts can therefore say
which requests go out, in which order, and with which headers.

### Behaviour of the code worth knowing

- `api` sends `Content-Type: application/json` with every request, even with a
  `FormData` body, where a multipart upload would normally leave the header to
  the browser. `UploadDeclaresJson` proves that the upload request carries it.
- When no token is held, a caller-supplied `Authorization` header is sent
  as given. An empty stored token counts as no token.
- A transport failure rejects with `fetch`'s own error, and an unparseable
  success body with `JSON.parse`'s `SyntaxError`: neither becomes
  `Request failed`. Every rejection of `api` is an `Error`, so
  `getErrorMessage` always returns its message, and the `"Login failed"` and
  `"Register failed"` fallbacks are never shown. `LoginEffect` and
  `HandleRegister` give the shown error exactly.
- Two conversions to text can throw a `TypeError`: `new Error(msg)` for a
  failure body, and `localStorage.setItem` for the login reply's
  `accessToken`. Both throw when the value is a parsed object with its own
  `toString` key, or an array holding one. `api` then rejects with that
  `TypeError`, and login then stores nothing and does not call `/me`.

## Model

| member | source | states |
|---|---|---|
| `JsValues.ToJsString` | src/lib/auth.ts:53 | `String(v)` throws exactly when `v` is an object with its own `toString` key or an array holding one somewhere inside; otherwise it gives a text |
| `Auth.TokenStore.Get` | src/lib/auth.ts:25-27 | returns exactly the stored token, or `None` when the slot is empty |
| `Auth.TokenStore.Set` | src/lib/auth.ts:28-30 | afterwards the slot holds the given token, overwriting any earlier one, so the next `Get` returns it |
| `Auth.TokenStore.Clear` | src/lib/auth.ts:31-33 | afterwards the slot is empty whatever it held, so the next `Get` returns `None` |
| `Auth.OutgoingHeaders` | src/lib/auth.ts:38-43 | `Content-Type` is always present: the caller's value if given, else `application/json`. `Authorization` is `Bearer <token>` exactly when a non-empty token is held, overriding the caller's. Without a token, a caller's `Authorization` is kept and none is added. Every other caller header passes through unchanged, and nothing else is added |
| `Auth.HeadersDetermined` | src/lib/auth.ts:39-43 | the properties of `OutgoingHeaders` determine the header record completely: any record meeting them equals it |
| `Auth.FailureMessage` | src/lib/auth.ts:48-52 | `msg` is a truthy `message` field; otherwise a truthy `error` field; otherwise, and for an unparseable or `null` body, the text `Request failed` |
| `Auth.NewErrorMessage` | src/lib/auth.ts:53 | the message of what `throw new Error(msg)` throws: `String(msg)` when it converts, and the conversion `TypeError`'s text exactly when `msg` cannot be converted |
| `Auth.Settle` | src/lib/auth.ts:45-57 | a network failure rejects with its own error. A non-ok status always rejects, with `NewErrorMessage` of `FailureMessage`, and never yields a value. A value comes only from an ok response: empty text is "no content", other text is exactly what `JSON.parse` gives, or its `SyntaxError` |
| `Auth.Api` | src/lib/auth.ts:37-58 | sends one request: the caller's path, method and body unchanged, with the headers `OutgoingHeaders` gives for the token held at the call. It settles as `Settle` says for the exchange that request meets. It never writes to the token store |
| `Auth.SuccessBodyRoundTrip` | src/lib/auth.ts:55-57 | when an ok response carries text that `JSON.parse` turns into `x`, `api` resolves with `x` itself |
| `Auth.FailurePayloadExamples` | src/lib/auth.ts:46-53 | a non-ok response with `{"message": "bad credentials"}` rejects with `bad credentials`, one with `{"error": "invalid credentials"}` with `invalid credentials`, and one with an unparseable body with `Request failed` |
| `Auth.UnconvertibleMessageRejects` | src/lib/auth.ts:51-53 | a failure body whose `message` is an object with its own `toString` key rejects with the conversion `TypeError`, not with any text of the body |
| `ProfileUploader.UploadLimits` | src/components/ProfileUploader.tsx:4-6 | the size limit is 5 × 1024 × 1024 = 5242880 bytes, the size message names 5MB, and the allowed types are JPEG, PNG and WebP |
| `ProfileUploader.CaughtMessage` | src/components/ProfileUploader.tsx:75-77 | an `Error` shows its message; any other caught value shows `업로드 실패` |
| `ProfileUploader.Uploader.constructor` | src/components/ProfileUploader.tsx:13-16 | a new uploader has no file, no preview, is not busy and shows no error |
| `ProfileUploader.Uploader.ValidateAndSet` | src/components/ProfileUploader.tsx:24-36 | a disallowed type gets the type message whatever the size. An allowed type above 5242880 bytes gets the size message, and exactly 5242880 bytes is accepted. A refused file leaves the earlier selection and preview in place. An accepted file becomes the selection and clears the error |
| `ProfileUploader.Uploader.OnPick` | src/components/ProfileUploader.tsx:38-47 | only the first file of a pick or drop is considered. A disallowed type keeps the selection and shows the type message; an allowed type above 5242880 bytes keeps it and shows the size message; otherwise the file is selected and the error cleared. `preview` and `busy` never change, and an empty list changes nothing |
| `ProfileUploader.Uploader.OnClear` | src/components/ProfileUploader.tsx:53-57 | afterwards there is no file, no preview and no error, and `busy` is unchanged |
| `ProfileUploader.Uploader.OnUpload` | src/components/ProfileUploader.tsx:59-81 | with no file, nothing is sent and no state changes, `busy` included. With a file, exactly one form POST of it is sent and `busy` ends false whatever the outcome. On success `onUpdated` receives `data.url` and the state is cleared. On failure the error is the failure's message and the file and preview are kept. An empty or `null` reply read by `onUpdated` counts as a failure with the `TypeError`'s message |
| `ProfileUploader.UploadDeclaresJson` | src/components/ProfileUploader.tsx:66-71 | the upload request has a form body and still declares `Content-Type: application/json` |
| `App.GetErrorMessage` | src/App.tsx:18-26 | an `Error` gives its message and a string gives itself, whatever the fallback. Another value gives its JSON text. The fallback appears only when stringifying throws. The result is undefined only when `JSON.stringify` returns undefined |
| `App.AuthApp.constructor` | src/App.tsx:29-30 | the screen mounts with nobody signed in and no error |
| `App.AuthApp.Startup` | src/App.tsx:44-56 | with no token or an empty one, nothing is sent and nothing changes. With a token, one `/api/auth/me` request carrying it is sent. A reply becomes `me` and the token stays; a failure clears both the token and `me`. The error text is never touched |
| `App.AuthApp.HandleLogin` | src/App.tsx:85-99 | the login request goes first, carrying any token held before. On failure, or on an empty or `null` reply, nothing else is sent, token and `me` are unchanged, and the error is the failure's text. If `accessToken` cannot be converted to text, the same holds with the conversion `TypeError`'s text. Otherwise its text (`undefined` when missing) is stored before `/api/auth/me` is called with it. It stays stored whatever `/me` answers; on success `me` is the reply and the error is empty, on failure `me` is kept and the error is set |
| `App.AuthApp.HandleRegister` | src/App.tsx:66-78 | the register request goes first. If it fails, nothing else is sent, token and `me` are unchanged, the error is its message, and login is not attempted. If it succeeds, whatever its reply, the login flow follows with the same credentials, with the effect `HandleLogin` states |
| `App.AuthApp.HandleLogout` | src/App.tsx:105-108 | afterwards the token store is empty and `me` is `None`; the error text is unchanged |
| `App.InvalidCredentialsScenario` | src/App.tsx:85-98 | a login rejected with `{"error": "invalid credentials"}` shows exactly `invalid credentials`, leaves an empty store empty and sends nothing more |
| `App.LoginStoresTokenBeforeMe` | src/App.tsx:89-95 | a login reply `{"accessToken": t}` with non-empty `t` stores `t`, and the second request is `/api/auth/me` with `Authorization: Bearer t` |
| `App.MissingAccessTokenStoresUndefined` | src/App.tsx:89-94 | a login reply without `accessToken` stores the text `undefined`, and `/me` is then sent with `Bearer undefined` |
| `App.EmptyOrNullReplyStops` | src/App.tsx:89 | an empty login reply and a `null` one each stop the flow after the one request, with token and `me` unchanged; the error is the engine's text for reading `accessToken` of `undefined` or of `null` respectively |
| `App.UnconvertibleTokenIsNotStored` | src/App.tsx:89-93 | a login reply whose `accessToken` is an object with its own `toString` key stores nothing, sends no `/me` request, and shows the conversion `TypeError`'s text |
| `Avatar.Trim` | src/components/Avatar.tsx:9-10 | the result is the slice of the input that follows its leading run of white space and line terminators, with only such characters after it. It is empty exactly when the input is all such characters, and otherwise starts and ends with a kept character |
| `Avatar.TrimKeepsFirstVisible` | src/components/Avatar.tsx:9-10 | the first character of the trimmed text is the first non-white-space character of the input |
| `Avatar.Letter` | src/components/Avatar.tsx:8-10 | the letter is one character. It is the upper-cased first visible character of a non-blank `fallbackText`. Otherwise (absent, empty or blank) it is the upper-cased first visible character of `alt`. When both are blank it is `?` |
| `Avatar.Title` | src/components/Avatar.tsx:18 | the title is `fallbackText` when it is non-empty, without trimming, and `alt` otherwise |
| `Avatar.Render` | src/components/Avatar.tsx:8-32 | the fallback block is rendered exactly when `src` is absent or empty, with `Letter` and `Title`. Otherwise the image is rendered with the given `src` and `alt`, where `alt` defaults to `profile` |
| `Avatar.DefaultAvatar` | src/components/Avatar.tsx:8-10 | with no `src`, `alt` or `fallbackText`, the avatar shows `P` with the title `profile` |
| `Avatar.BlankFallbackStillTitles` | src/components/Avatar.tsx:9-18 | a non-empty but blank `fallbackText` is skipped for the letter, which comes from `alt`, yet it is still the title |

## Left out

- The network: `fetch`, response streams, status codes beyond the `ok` flag. The backend is a function from a request to its exchange. It has no memory between requests, so a flow's two requests are answered independently.
- `localStorage` durability across reloads and origins: the store is one slot, and the persisted value is given to the constructor.
- `JSON.parse` and `JSON.stringify` internals: parsing is a parameter. Request bodies are kept as the JSON value handed to `JSON.stringify`, so its text and key order are not modelled. JSON numbers are integers; fractions and exponents are not modelled.
- JsValues.ToJsString: a number is printed with all its digits. JavaScript rounds every number to a double and prints magnitudes of 10^21 and above in exponent form (`"1e+21"`), so the text agrees only for integers up to 2^53.
- Header names are record keys compared case-sensitively, as the code's record is. `fetch`'s case-insensitive merge of the record is not modelled. Caller headers given as a `Headers` object or an array are not modelled, only plain records.
- React rendering, hooks, JSX, styling and the avatar's `size`/`fontSize`. The form inputs (email, password, nickname) become parameters of the flows.
- `setError("")` at the start of login and register is visible in the screen only while the request runs. The model states the error at the end of each flow. Likewise `busy` is true during an upload only while the request runs.
- The `FileReader` preview: `ValidateAndSet` leaves `preview` unchanged, since the reader sets it later.
- `window.alert` and `window.location.reload` (browser side effects). Exceptions thrown by the parent's `onUpdated` callback are not modelled.
- The engine's `TypeError` texts are a parameter, not the engine's wording.
- Overlapping requests and async interleaving: every flow runs to completion before the next.
- Avatar.Letter: upper-casing covers the ASCII letters only, and other characters are kept as they are. The first character is a Unicode scalar value, not a UTF-16 code unit. An explicit `null` for `alt` is not modelled (its declared type is `string`).
- `vite.config.ts` holds only development-server proxy settings and is not part of this model.
