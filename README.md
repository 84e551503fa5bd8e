# Route gate and video upload of a media-upload web application

This project models, in Dafny, the two pieces of decision logic of a small web
application in which users sign in, upload videos to a hosted media service and list
the uploaded videos from a database.

- **The route authorization gate** (`middleware.ts`) runs before every request. From
  whether the request carries a user id, and from the request's pathname, it lets the
  request through (`Next`), redirects a signed-in user from a public page to the
  dashboard `/home`, or redirects a signed-out user from a protected route to
  `/sign-in`. The public pages are `/sign-up`, `/sign-in`, `/` and `/home`. The only
  public API route is `/api/videos`. An API request is one whose path starts with `/api`.
  Module `Middleware` holds the gate as written (`Gate`), the same gate without its
  second signed-out check (`GateWithoutApiCheck`), and a decision table over route
  classes (`Classify`, `Decide`). Lemmas relate the three.
- **The video upload handler** (`POST /api/video-upload`, `app/api/video-upload/route.ts`)
  runs a fixed sequence of guarded steps:
  1. authenticate the caller;
  2. check the three media-host settings;
  3. read the multipart form;
  4. check the `file` field;
  5. upload the file to the media host;
  6. create a video record in the store.

  The first step that fails decides the status and the error message. A `finally`
  block releases the store connection. Module `VideoUpload` takes the outcome of each
  external step as an input (`Request`). Its method `Post` returns the response and
  the trace of calls the handler makes on its collaborators (`Effect`): authentication,
  form read, upload, record creation and disconnect. `RecordData` builds the record
  from the form and the host's answer.
- Module `JsValues` holds the JavaScript semantics the two rely on. These are
  truthiness of strings and numbers, `startsWith`, `n || 0`, and `String(n)` for a byte
  count. `String(n)` is modelled by `DecimalString`, with its inverse `ParseDecimal`.

Three facts about the code that the model makes explicit:
- A failing `auth()` is never treated as "no user". The gate does not catch the
  failure; the framework handles it. The upload handler answers it with 500
  "Authentication failed", not with 401 (app/api/video-upload/route.ts:33-38).
- A signed-in user on a protected route is let through (middleware.ts:21-35).
- A signed-out user can reach `/api/videos`, and a signed-in user passes on every
  `/api/*` path (middleware.ts:11-13, 21-35).

## Model

| member | source | states |
|---|---|---|
| `Middleware.IsPublicRoute` | middleware.ts:4-9 | A pathname is a public page exactly when it is `/sign-up`, `/sign-in`, `/` or `/home`. |
| `Middleware.IsPublicApiRoute` | middleware.ts:11-13 | A pathname is a public API route exactly when it is `/api/videos`. |
| `JsValues.TruthyString` | middleware.ts:21-25 | A user id or setting that may be null counts as present exactly when it is a non-empty string; null and the empty string are absent. |
| `JsValues.StartsWith` | middleware.ts:19 | `s.startsWith(prefix)` holds exactly when the prefix is no longer than `s` and agrees with `s` character by character. |
| `Middleware.Gate` | middleware.ts:15-36 | The only redirect targets are `/home` and `/sign-in`. A redirect to `/home` happens only for a signed-in user; a redirect to `/sign-in` only for a signed-out one. |
| `Middleware.GateWithoutApiCheck` | middleware.ts:15-36 | With lines 30-32 removed, the gate redirects exactly when: the user is signed in and on a public page other than `/home`; or the user is signed out and on a path that is neither a public page nor the public API route. |
| `Middleware.Classify` | middleware.ts:4-18 | Each pathname falls in exactly one class: the dashboard `/home`, another public page, the public API route, or a protected route (neither list). |
| `Middleware.NoPublicRouteIsApi` | middleware.ts:4-19 | No public page starts with `/api`. |
| `Middleware.ApiCheckRedundant` | middleware.ts:26-32 | The second signed-out check (lines 30-32) never changes the decision: the gate equals the gate without it on every input. |
| `Middleware.GateFollowsDecisionTable` | middleware.ts:4-36 | The gate equals the decision table applied to user presence and route class. |
| `Middleware.GateDependsOnlyOnPresence` | middleware.ts:15-36 | Two user ids with the same presence get the same decision on every path. |
| `Middleware.SignedInGate` | middleware.ts:18-35 | A signed-in user is sent to `/home` exactly on a public page other than `/home`. Otherwise (on `/home`, on a protected page, on any `/api/*` path) the request passes. A signed-in user is never sent to `/sign-in`. |
| `Middleware.SignedOutGate` | middleware.ts:25-35 | A signed-out user is sent to `/sign-in` exactly on a path that is neither a public page nor `/api/videos`. On those two the request passes. A signed-out user is never sent to `/home`. |
| `Middleware.NoRedirectLoop` | middleware.ts:4-28 | Following a redirect of the gate with the same user is let through. |
| `JsValues.OrZero` | app/api/video-upload/route.ts:103 | `n || 0` keeps a present, truthy number and gives 0 otherwise. The result is truthy exactly when the input was. |
| `JsValues.DecimalString` | app/api/video-upload/route.ts:101 | `String(n)` of a natural is a non-empty digit string without a leading zero. It has one digit exactly when n < 10. |
| `JsValues.ParseDecimalString` | app/api/video-upload/route.ts:101 | Reading back the decimal string of n gives n. |
| `JsValues.DecimalStringOfParse` | app/api/video-upload/route.ts:101 | Every canonical decimal string is the decimal string of its own value. So `String` is a bijection between naturals and canonical decimal strings. |
| `JsValues.DecimalStringInjective` | app/api/video-upload/route.ts:101 | Distinct byte counts give distinct `compressedSize` strings. |
| `VideoUpload.FormGet` | app/api/video-upload/route.ts:62-65 | `formData.get(name)`: a value it returns is the value of an entry with that name. |
| `VideoUpload.TruthyFormValue` | app/api/video-upload/route.ts:67 | A form value is truthy for any uploaded file and falsy for null and for the empty text; a text is truthy exactly when it is not empty, so `!file` holds exactly for null and the empty text. |
| `VideoUpload.FormGetFindsFirst` | app/api/video-upload/route.ts:61-65 | A form field read gives null exactly when no entry has that name. Otherwise it gives the value of the first entry with that name. |
| `VideoUpload.RecordData` | app/api/video-upload/route.ts:96-105 | The record data copies `title`, `description` and `originalSize` from the form, and `publicId` from the host's answer. `compressedSize` is the canonical decimal string whose value is the host's byte count. `duration` is the host's duration when that is present and truthy, and 0 otherwise. |
| `VideoUpload.Stored` | app/api/video-upload/route.ts:96-107 | The record `create` returns keeps every field the handler supplied, and adds the store's id and its two timestamps. |
| `VideoUpload.Post` | app/api/video-upload/route.ts:26-119 | The guards run in source order, each with its status and message, and nothing after a failing guard happens. Auth throws: 500 "Authentication failed", no further call, no disconnect. No user id: 401 "Unauthorized", before any credential check. A missing or empty media-host setting: 500 "Cloudinary credentials not found", before the form is read. Unreadable form: 500 "Upload video failed". Missing or empty `file`: 400 "No file uploaded", no upload. A text in place of the file: 500, no upload. Upload error: 500, no record. Create error: 500. Success: 200 with the stored record of `RecordData`. Every trace starts with authentication. Disconnect happens exactly once, as the last call, exactly when the request got past the sign-in check. A record is created only right after an upload the host confirmed, with the host's `publicId`. The status is 200 exactly when the record was created. |

## Left out

- The identity provider's internals: session validation, how `auth()` resolves, OAuth flows. The outcome of `auth()` is an input: it throws, or it returns a user id or none.
- In the gate, `auth()` throwing is not modelled. The gate does not catch it; the framework handles it.
- Route matching uses exact equality with the list entries. The matcher's path-pattern semantics and the `config.matcher` pattern (middleware.ts:38-40) are not modelled; the gate is assumed to run on every request.
- A redirect is modelled by its target path. The full URL is built on the request's origin.
- The media host SDK is not modelled: the upload options (resource type, transformation, folder), the stream and the Promise wrapping. Only the outcome of an upload is modelled: success with `public_id`, `bytes` and an optional `duration`, or an error.
- Reading an uploaded file's bytes (`arrayBuffer`, `Buffer.from`) is assumed to succeed. A failure there would also end in 500 "Upload video failed".
- The store client is not modelled. `create` is an outcome that gives the record's id and timestamps or fails. A failing `$disconnect` is not modelled.
- The record's `title`, `description` and `originalSize` are modelled as the raw form values: null, a text or a file. The handler's casts check nothing. Whether the store rejects a null or a file there is left to the create outcome. The record type in types/index.ts declares these fields as strings.
- Environment values are inputs (`Env`), each possibly absent. The configuration of the media host at module load is not modelled.
- Logging (`console.error`, `console.log`) is left out.
- JsValues.DecimalString: models `String(bytes)` only for whole byte counts. JavaScript's exponent notation for numbers from 10^21 up is not modelled, and neither is a non-integer count.
- `duration` is a number that is only tested and passed on. It is modelled as a real or NaN, without floating-point arithmetic.
- The video list route (app/api/videos/route.ts) is not part of this model. It delegates ordering by creation time to a database query, so there is no local logic to verify.
- The image upload route (app/api/image-upload/route.ts) is not part of this model. It wraps the media host, and its only local check is for a missing file.
- The sign-in and sign-up pages are user interface and are not part of this model.
