# Google Drive Editor: save path and draft state, modelled in Dafny

The system is a browser text editor. Its backend holds a Google OAuth token in
the server-side session and writes documents into the user's Google Drive.
The project models the two pieces of that system that make sequential
decisions:

- **The `POST /save-to-drive` handler** (`server.dfy`, module `Server`). It
  runs against an abstract Drive upstream: the class `Server.Upstream`
  answers each kind of call from a script and logs every call it receives.
  The handler runs in this order:
  1. The auth gate: no session user gives 401.
  2. The folder listing.
  3. Folder resolution. A truthy first listed id is used. Otherwise one
     `Letters` folder is created and its id is used.
  4. The HTML wrap, with every `\n` turned into `<br>` and nothing escaped.
  5. The upload metadata: `Letter_<ms>`, the Google document type, and the
     folder as the only parent.
  6. One multipart upload, whose response data is relayed unchanged.

  Any rejected call ends the run with 500 `{error: message}`. The method
  `Server.SaveToDrive` is proved to leave exactly the call log and give
  exactly the response of the pure function `Server.SaveOutcome`. Lemmas
  about `SaveOutcome` then state:
  - that no user means no calls;
  - the call order, with the session token on every call;
  - which folder id is used;
  - what a 200 answer contains;
  - that a failed call is the last one made, and that each rejected call
    ends the run with its own message;
  - the end-to-end run with token `T` and content `Hello\nWorld`.

  `Server.Logout` gives the three outcomes of `GET /auth/logout`, together
  with the library steps each outcome takes.
- **The editor component** (`editor.js`, modelled in `editor.dfy`, module
  `EditorShell`). The class `EditorShell.Editor` has the fields `content`
  and `isSaving`. It reads and writes the `draftContent` slot of the class
  `EditorShell.LocalStorage`. Each handler states its whole new state.
  Each handler also keeps the draft invariant, which says that whenever the
  slot is present it holds text with a character `trim` keeps. The handlers
  are mounting with hydration, `handleContentChange`, `saveDraft`,
  `clearEditor` and `saveToGoogleDrive`. `saveToGoogleDrive` is split at
  its `await` into `SaveToGoogleDrive` and `SaveToGoogleDriveSettled`. The
  split shows what is true while the request is in flight: `isSaving` is
  true, and other handlers may run. `ClickSaveToGoogleDrive` models the
  button that is disabled while a save is in flight.

The JavaScript string operations both pieces depend on are in `js_text.dfy`
(module `JsText`):
- `String.prototype.trim`, using ECMAScript's full set of whitespace and
  line-terminator characters;
- the global newline replacement, with a reading back;
- the decimal rendering of the millisecond clock.

Inputs the code does not compute are parameters of the model:
- the session user;
- the request body's `content`;
- the value of `Date.now()`;
- the Drive replies;
- the errors of `req.logout` and `req.session.destroy`;
- whether the frontend's save request succeeds.

Some behaviours of the code are worth stating outright:
- A folder is created whenever the first listed id is falsy. That includes a
  first entry with an empty id, not only an empty listing.
- The editor removes the draft slot whenever the content is blank after
  `trim`, not only when it is the empty string.
- The logout status depends only on the errors that `req.logout` and
  `req.session.destroy` report. The route does not look at whether a session
  exists. The model takes those two errors as inputs.
- The handler does not check that `content` is non-empty. It does need a
  string: missing or non-string `content` makes `content.replace` throw.
  That happens after the listing and any folder creation have already run,
  so the answer is 500 and no upload is made
  (`Server.NonTextContentFailsBeforeUpload`).
- The replacement of `\n` by `<br>` cannot be undone for content that already
  contains a literal `<br>` (`JsText.ReplaceNewlinesNotInjective`). This is
  why the round-trip lemmas `JsText.RestoreReplaceNewlines` and
  `Server.WrapHtmlRoundTrip` require content without `<br>`.

The model also makes one behaviour of the code explicit. A save that
succeeds removes the draft slot even if the user edited the text while the
request was in flight. Those edits were never uploaded
(`EditorShell.SaveWhileEditing`).

## Model

| member | source | states |
|---|---|---|
| `JsText.TrimStart` | frontend/src/editor.js:29 | the result is a suffix of the input, only whitespace was cut, and it does not start with whitespace |
| `JsText.TrimEnd` | frontend/src/editor.js:29 | the result is a prefix of the input, only whitespace was cut, and it does not end with whitespace |
| `JsText.Trim` | frontend/src/editor.js:29 | `trim()` returns a contiguous slice with only whitespace cut on both sides, and that slice neither starts nor ends with whitespace |
| `JsText.IsBlank` | frontend/src/editor.js:29 | `!s.trim()` holds exactly when `s` has no character that `trim` keeps |
| `JsText.ReplaceNewlines` | backend/server.js:134 | `replace(/\n/g, '<br>')` leaves no newline, adds 3 characters per newline, and returns newline-free text unchanged (no escaping of `<` or `&`) |
| `JsText.ReplaceNewlinesAppend` | backend/server.js:134 | the replacement distributes over concatenation, so every other character stays in place and in order |
| `JsText.ReplaceNewlinesPrefix` | backend/server.js:134 | a newline-free prefix passes through unchanged |
| `JsText.ReplaceNewlinesJoin` | backend/server.js:134 | two newline-free lines joined by `\n` come out joined by `<br>` |
| `JsText.NoBreakAtStart` | backend/server.js:134 | text that neither contains `<br>` nor starts with a newline does not become text that starts with `<br>` |
| `JsText.RestoreReplaceNewlines` | backend/server.js:134 | round trip: reading `<br>` back as `\n` recovers any content that has no literal `<br>` |
| `JsText.ReplaceNewlinesNotInjective` | backend/server.js:134 | a newline and a literal `<br>` become the same text, so content that contains `<br>` cannot be recovered |
| `JsText.Decimal` | backend/server.js:143 | the timestamp's numeral is non-empty, all digits, and has no leading zero |
| `JsText.DecimalValueOfDecimal` | backend/server.js:143 | reading the numeral back gives the timestamp |
| `JsText.DecimalOfDecimalValue` | backend/server.js:143 | a numeral with no leading zero (other than "0") is the numeral of its own value, so each timestamp has exactly one such numeral |
| `JsText.DecimalInjective` | backend/server.js:143 | distinct timestamps have distinct numerals |
| `Server.Bearer` | backend/server.js:110 | the Authorization header is `Bearer `, then the session token unchanged, so distinct tokens give distinct headers |
| `Server.WrapHtml` | backend/server.js:134 | the HTML body has no newline, opens with `<html><body><p>`, closes with `</p></body></html>`, and between the two holds exactly the content with every `\n` turned into `<br>` (`ReplaceNewlines`), so newline-free content verbatim |
| `Server.WrapHtmlRoundTrip` | backend/server.js:134 | stripping the paragraph and reading `<br>` back recovers content that has no literal `<br>` |
| `Server.LetterName` | backend/server.js:143 | the file name is `Letter_` followed by a numeral with no leading zero (other than "0" itself) |
| `Server.LetterTimestampDeterminesName` | backend/server.js:143 | the only name that decodes to a clock reading is the name the handler makes from it |
| `Server.LetterNameRoundTrip` | backend/server.js:143 | the clock reading can be read back from the file name |
| `Server.LetterNameInjective` | backend/server.js:143 | distinct clock readings give distinct file names |
| `Server.UploadMetadata` | backend/server.js:140-148 | the metadata has the document mimeType, `parents == [folderId]`, and a name that decodes to the clock reading, which by `LetterTimestampDeterminesName` is exactly `Letter_${now}` |
| `Server.Upstream.GetFiles` | backend/server.js:107-116 | the listing call is logged with its authorization, query and fields, and the scripted reply is returned |
| `Server.Upstream.PostFolder` | backend/server.js:122-129 | the folder-create call is logged with its authorization, name and mimeType, and the scripted reply is returned |
| `Server.Upstream.PostUpload` | backend/server.js:158-167 | the upload call is logged with its authorization, metadata and HTML body, and the scripted reply is returned |
| `Server.ListedFolderId` | backend/server.js:118 | the listed id is truthy exactly when the listing has a first entry with a non-empty id, and then it is that id |
| `Server.ResolveFolder` | backend/server.js:118-131 | a truthy listed id issues no call and is the folder; otherwise exactly one `Letters` folder creation is issued and its reply decides the folder |
| `Server.SaveOutcome` | backend/server.js:98-174 | a run makes at most three calls; it answers 401, with no call, exactly when there is no user; a relayed answer is the upload reply's data, after the upload as last call |
| `Server.SaveToDrive` | backend/server.js:98-174 | the handler appends exactly the calls of `SaveOutcome` to the upstream's log, in order, and gives exactly its response |
| `Server.NoUserNoCalls` | backend/server.js:100 | there is no user exactly when no call is made, and exactly when the status is 401; with a user, the first call is the folder listing |
| `Server.CallsInOrderWithSessionToken` | backend/server.js:102-167 | every call carries `Bearer <session token>`; the run is one listing, then at most one create, then at most one upload, with the upload last |
| `Server.ExistingFolderIsReused` | backend/server.js:118-121 | for a truthy first listed id, no folder is created and the upload's parents are exactly that id |
| `Server.MissingFolderIsCreated` | backend/server.js:118-131 | for an empty listing or a falsy first id, the second call is the one `Letters` folder creation; its id becomes the parent, and if it fails the run stops with 500 |
| `Server.SuccessfulSave` | backend/server.js:134-169 | a 200 answer relays the upload's data unchanged, after 2 or 3 calls, the last being the upload of the wrapped content under the clock's letter name |
| `Server.AllRepliesOkMeansRelayed` | backend/server.js:105-169 | with a user, string content and successful replies, the answer is the relayed upload data |
| `Server.FailureStopsTheRun` | backend/server.js:105-173 | a 500 caused by an upstream failure comes from the last call logged, which rejected with that message; no later call is made |
| `Server.RejectedListingStopsTheRun` | backend/server.js:107-173 | a rejected listing is the only call made, and the answer is 500 with its message |
| `Server.RejectedCreationStopsTheRun` | backend/server.js:121-173 | after a listing with a falsy first id, a rejected creation is the second and last call, and the answer is 500 with its message |
| `Server.RejectedUploadStopsTheRun` | backend/server.js:158-173 | with the folder known and string content, a rejected upload of the wrapped content is the last call, and the answer is 500 with its message |
| `Server.NonTextContentFailsBeforeUpload` | backend/server.js:103-134 | non-string content never reaches an upload and gives 500; after a successful listing the calls made are exactly the listing and the folder resolution's calls, and with the folder resolved the answer is the content failure |
| `Server.HelloWorldScenario` | backend/server.js:98-169 | token `T`, content `Hello\nWorld` and an empty listing give list, then create, then an upload of `<html><body><p>Hello<br>World</p></body></html>` under the created folder; the data is relayed |
| `Server.HelloWorldHtml` | backend/server.js:134 | `Hello\nWorld` wraps to `<html><body><p>Hello<br>World</p></body></html>` |
| `Server.Logout` | backend/server.js:80-93 | a logout error gives 500 "Logout failed" and stops; otherwise a destroy error gives 500 "Failed to destroy session"; otherwise the cookie `connect.sid` is cleared and the answer is 200; the status is 200 exactly when the cookie is cleared |
| `EditorShell.DraftSlotHasVisibleChar` | frontend/src/editor.js:29-32 | under the draft invariant, a present slot holds a non-whitespace character |
| `EditorShell.HydratedContent` | frontend/src/editor.js:20-25 | hydration takes the slot's value when it is present, and keeps "" when it is absent |
| `EditorShell.LocalStorage.GetItem` | frontend/src/editor.js:21 | `getItem` returns the stored value, or null for a missing key |
| `EditorShell.LocalStorage.SetItem` | frontend/src/editor.js:30 | `setItem` overwrites that one key and leaves the others alone |
| `EditorShell.LocalStorage.RemoveItem` | frontend/src/editor.js:32 | `removeItem` deletes that one key and leaves the others alone |
| `EditorShell.Editor.Mount` | frontend/src/editor.js:9-25 | mounting starts with `isSaving == false`, loads the hydrated content, and does not write to storage |
| `EditorShell.Editor.HandleContentChange` | frontend/src/editor.js:27-34 | `content == v`; the slot holds `v` if `v` is non-blank and is absent otherwise; other keys and `isSaving` are unchanged; the invariant holds afterwards |
| `EditorShell.Editor.SaveDraft` | frontend/src/editor.js:36-43 | blank content leaves storage unchanged; otherwise the slot is set to the content; the invariant is preserved |
| `EditorShell.Editor.ClearEditor` | frontend/src/editor.js:76-79 | `content == ""`, the slot is removed, and the invariant holds afterwards |
| `EditorShell.Editor.SaveToGoogleDrive` | frontend/src/editor.js:45-53 | blank content issues no request and changes nothing; otherwise `isSaving` is raised and the request carries the content |
| `EditorShell.Editor.SaveToGoogleDriveSettled` | frontend/src/editor.js:52-61 | success removes the slot and failure leaves it; content is untouched; `isSaving` ends false either way; the invariant is preserved |
| `EditorShell.Editor.ClickSaveToGoogleDrive` | frontend/src/editor.js:110 | a click while `isSaving` is a no-op; otherwise it acts as `saveToGoogleDrive` |
| `EditorShell.SaveWhileEditing` | frontend/src/editor.js:45-61 | over a whole save with an edit in flight, the busy button ignores a second click, the invariant holds, `isSaving` ends false, and success removes the slot even after the edit |

## Left out

- Passport, the Google OAuth strategy, user serialization and the auth redirect routes (backend/server.js:43-70). These are calls into libraries whose code is not part of this model.
- `GET /auth/user` (backend/server.js:73-78). It passes the session record through and makes no decision beyond the 401 gate that the save handler also has.
- The MongoDB connection, the session store, the express-session settings and CORS (backend/server.js:14-41). These are configuration and I/O.
- The axios transport and the multipart encoding (backend/server.js:96, 137-167). An upload is an abstract call that carries the metadata and the HTML body; headers and boundaries are not modelled.
- The folder-create call's `Content-Type: application/json` header (backend/server.js:128). A create call carries only its authorization, name and mimeType.
- The save handler's `console.log` of `req.user` (backend/server.js:99) and `console.error` of the upstream error (backend/server.js:171). They are logging output only.
- `Date.now()` is a parameter. No claim is made that two saves get different names, only that different clock readings do.
- Decimal: modelled for non-negative integers only. That covers every millisecond clock reading after 1970. JavaScript's exponent form above 10^21 is not modelled.
- Server.User: holds the access token as a string. A session user without a token, which the code would send as `Bearer undefined`, is not modelled.
- Server.FileRef: an id is a string, with "" standing for every falsy id. A listing reply without a `files` array, which would throw before any decision, is not modelled.
- Server.SaveToDrive: the folder-create reply's id is taken as a string. A reply without an id, which the code would send as `parents: [null]`, is not modelled.
- Server.ContentNotText: the text of the JavaScript engine's TypeError message is not modelled; only the 500 status and the missing upload are.
- The error objects the logout route receives and discards (backend/server.js:81-87): only whether each error is present is modelled. The cookie's `httpOnly`/`secure` flags (backend/server.js:89) are not modelled either.
- React rendering, ReactQuill, `alert` and `console` output, the identity fetch effect, and `handleLogout`'s navigation (frontend/src/editor.js:13-18, 64-74, 81-121). These are UI and network plumbing.
- `frontend/src/login.js` and `frontend/src/App.js`. They hold a redirect button and the router configuration, with no logic to model.
- EditorShell.LocalStorage.SetItem: modelled as never throwing. In a browser `setItem` can throw a `QuotaExceededError` or `SecurityError` (frontend/src/editor.js:30, 41). In `handleContentChange` the content would then already be updated while the slot keeps its old value, and the exception would escape the handler; in `saveDraft` the confirmation alert would be skipped. The draft invariant would hold in both cases, because the slot is left unchanged.
- Strings are modelled as sequences of Unicode scalar values, while JavaScript strings are sequences of UTF-16 code units and may hold lone surrogates, which the model cannot express. `trim` and the `/\n/g` replacement act the same way on every string the model can express.
- Concurrency: the model does not run two handlers at the same time. The `await` in `saveToGoogleDrive` is a point where other handlers may run; the disabled button is modelled as a click while `isSaving` doing nothing.
