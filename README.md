# Datenerfassung dashboard — a verified model

This project models the logic of a small CRUD dashboard for one record type,
"Datenerfassung". The records live in a hosted records API (Living Apps) under
one fixed app id. Two parts are modelled:

- **The record access layer** (`src/services/livingAppsService.ts`). It reads
  the 24-hex-digit record id from the end of a URL, builds record URLs and
  the REST requests for list/get/create/update/delete, and interprets a
  response as an error, `true` or the parsed body. It also flattens the list
  response, a mapping from record id to record body, into a sequence of
  records, each with its key as `record_id`.
- **The dashboard** (`src/pages/Dashboard.tsx`). It derives views from the
  records: sorted newest first by `createdat`, the five most recent, and the
  date behind "last updated". It has display fallbacks and chooses which page
  to show. It is also a small state machine: loading, the error, the records,
  the dialogs' selections, the create/edit form and the in-flight flags.

Files:

- `wrappers.dfy`: `Option` and `Result`.
- `types.dfy`: the record type from `src/types/app.ts` and the app id.
- `string_order.dfy`: lexicographic string order, which stands in for `localeCompare`.
- `living_apps_service.dfy`: the access layer. JavaScript values, objects as
  ordered property lists, and the object spread `{ record_id: id, ...rec }`
  written out as successive property assignments.
- `dashboard_views.dfy`: the derived views, written as functions (the source
  computes them as expressions).
- `dashboard_controller.dfy`: the classes `Dashboard`, `RecordDialog` and
  `DeleteConfirmDialog`. Their fields are the component state cells, and
  their methods are the handlers.

Each asynchronous handler is split at its `await`. The part before it is one
method, which returns the request it sends. The part after it is another
method, which takes the response. Continuations that follow each other
without an intervening event (a resolved promise running the dialog's
`then`-part) are folded into one method.

`extractRecordId` is modelled as the regular-expression search itself. The
leftmost position where `([a-f0-9]{24})$` matches under the `i` flag is
computed by `SearchFrom`. `ExtractRecordId`'s contract then states the closed
form: the last 24 characters, exactly when they are all hex digits.

The sort is an insertion sort that keeps records with equal keys in their
input order. That is the result `Array.prototype.sort` gives, since it is
stable. It is proved to be newest first, a permutation of its input, and
stable. Together these determine the result uniquely.

Where the declared types and the code disagree, the model follows the code.
The record type declares `createdat` as a plain string, but the dashboard
guards against its absence (`createdat ?? ''`), so the model makes it
optional. An empty `updatedat` is not replaced by `createdat`, because `??`
falls back only on a missing value; the "last updated" label then shows
nothing.

## Model

| member | source | states |
|---|---|---|
| `LivingAppsService.SearchFrom` | src/services/livingAppsService.ts:12 | The regex search gives the leftmost position at or after `i` where 24 hex characters end the string, or none when no position matches. |
| `LivingAppsService.ExtractRecordId` | src/services/livingAppsService.ts:9-14 | Null, undefined and `''` give null. Otherwise there is a result exactly when the string has at least 24 characters and the last 24 are hex digits of either case. The result is those 24 characters: a suffix of length 24. |
| `LivingAppsService.CreateRecordUrl` | src/services/livingAppsService.ts:16-18 | The URL is `https://my.living-apps.de/rest/apps/` + app id + `/records/` + record id, the record endpoint under the API base URL. |
| `LivingAppsService.RecordIdRoundTrip` | src/services/livingAppsService.ts:9-18 | For every app id and every 24-hex-digit record id, extracting from the created URL gives back the record id. |
| `LivingAppsService.RecordUrlId` | src/services/livingAppsService.ts:9-18 | For any ids, the id read from a record URL is the id read from the record id alone. A record id shorter than 24 characters gives none, because the `/` before it breaks the match. |
| `LivingAppsService.RecordIdOfRequestUrls` | src/services/livingAppsService.ts:36-52 | No id is read from the collection URL (it ends in `records`). A delete URL gives back its 24-hex-digit id. |
| `LivingAppsService.CallApi` | src/services/livingAppsService.ts:20-31 | A failed fetch rejects. A non-ok response gives an error carrying the body text. An ok DELETE gives `true` whatever the body. Any other ok response gives the parsed body, or an error when the body is not JSON. |
| `LivingAppsService.DeleteIgnoresBody` | src/services/livingAppsService.ts:27-29 | A delete succeeds exactly when the response is ok, and its value is then `true`. |
| `LivingAppsService.RemoteErrorCarriesText` | src/services/livingAppsService.ts:27 | A create whose response is not ok, with body `quota exceeded`, rejects with that text as its message. |
| `LivingAppsService.OwnEntries` | src/services/livingAppsService.ts:37-38 | What `Object.entries` and a spread enumerate. An object gives its properties. An array or string gives one indexed entry per element or character. Other values give none. |
| `LivingAppsService.Assign` | src/services/livingAppsService.ts:38 | Assigning a property keeps the names distinct and adds the name to the keys. The property then has the new value and every other property keeps its own. Every existing name keeps its position, and a new name goes at the end. |
| `LivingAppsService.Spread` | src/services/livingAppsService.ts:38 | Spreading `src` over an object with distinct names keeps the names distinct. Every property of the target keeps its position. |
| `LivingAppsService.SpreadLookup` | src/services/livingAppsService.ts:38 | A spread holds the keys of both objects. A key takes `src`'s value when `src` has it, else `target`'s. |
| `LivingAppsService.WithRecordId` | src/services/livingAppsService.ts:38 | `{ record_id: id, ...body }`. `record_id` comes first. It is the key, unless the body has its own `record_id`, which then wins. All other body properties are copied unchanged and no others are added. |
| `LivingAppsService.Normalise` | src/services/livingAppsService.ts:37-39 | One record per entry of the response, in entry order. Record `i` is entry `i`'s body with entry `i`'s key injected as `record_id`. |
| `LivingAppsService.ListResult` | src/services/livingAppsService.ts:35-40 | The list operation passes on the error of a failed call. A `null` body gives a `TypeError`. An object body gives as many records as it has entries, each normalised from its entry. |
| `LivingAppsService.EntryResult` | src/services/livingAppsService.ts:41-44 | The single-record read passes on errors. A `null` body gives a `TypeError`. For an object body, `record_id` is the body's own `record_id` if present, else its `id` (undefined when absent). Every other property is the body's. |
| `LivingAppsService.OperationTargets` | src/services/livingAppsService.ts:36-52 | List (GET) and create (POST) target `/apps/{APP_ID}/records`. Get (GET), update (PATCH) and delete (DELETE) target the record URL of the id. Create and update send `{ fields }`; the others send no body. |
| `LivingAppsService.PayloadRoundTrip` | src/services/livingAppsService.ts:45-50 | The `{ fields }` payload read back gives exactly the fields submitted. |
| `DashboardViews.SortedRecordsCorrect` | src/pages/Dashboard.tsx:319-322 | The sorted view is non-increasing in `createdat ?? ''` under string order. It is a permutation of the records and has the same length. |
| `DashboardViews.SortedRecordsStable` | src/pages/Dashboard.tsx:320 | Records with equal `createdat ?? ''` keep their relative order from `records`. |
| `DashboardViews.SortScenario` | src/pages/Dashboard.tsx:319-322 | Records `a1` (created 2024-01-01) and `a2` (created 2024-06-01) sort as `[a2, a1]`. |
| `DashboardViews.RecentEntries` | src/pages/Dashboard.tsx:325 | The recent entries are the prefix of the sorted view of length `min(5, n)`. |
| `DashboardViews.RecentEntriesAreNewest` | src/pages/Dashboard.tsx:319-325 | No sorted record outside the recent entries is newer than any recent entry. |
| `DashboardViews.LastUpdatedSource` | src/pages/Dashboard.tsx:328-332 | No records give none. Otherwise the first sorted record's `updatedat` is used when present, else its `createdat`. A missing or empty choice gives none; a result is never empty. |
| `DashboardViews.LastUpdatedIsNewest` | src/pages/Dashboard.tsx:328-332 | The label's record is one of the records, and no record has a newer `createdat`. An empty `updatedat` gives no date, even when `createdat` is set. |
| `DashboardViews.DisplayField` | src/pages/Dashboard.tsx:442-447 | A present non-empty field shows as itself. An absent or empty field shows as `(Kein Wert)`. The display is never empty. |
| `DashboardViews.DeleteDialogName` | src/pages/Dashboard.tsx:554 | The delete dialog names the selected record's non-empty `feld_eins`. It falls back to `Eintrag` with no selection or no such field. |
| `DashboardViews.PageOf` | src/pages/Dashboard.tsx:347-402 | The loading page is shown exactly when loading, even with an error set. The error page is shown exactly when not loading and an error is set. The empty state is shown when neither and there are no records. Otherwise the list shows the records in the stable newest-first order of `SortedRecords`, which is a permutation of them. It also shows the first five of that order and the first record's last-updated date. |
| `DashboardController.Dashboard.constructor` | src/pages/Dashboard.tsx:292-299 | The dashboard starts loading, with no records, no error and no dialog open. |
| `DashboardController.Dashboard.StartFetch` | src/pages/Dashboard.tsx:301-305 | `fetchData` sets loading, clears the error, sends the list request and leaves the records and dialogs unchanged. |
| `DashboardController.Dashboard.FinishFetch` | src/pages/Dashboard.tsx:305-311 | Loading ends on every outcome. On success the records become the fetched ones and the error stays cleared. On failure the error is set and the records are unchanged. |
| `DashboardController.Dashboard.SetShowCreateDialog` | src/pages/Dashboard.tsx:537-542 | The create dialog is open exactly as requested, and nothing else changes. |
| `DashboardController.Dashboard.SelectForEdit` | src/pages/Dashboard.tsx:461 | The edit button selects its record for editing, and nothing else changes. |
| `DashboardController.Dashboard.EditDialogOpenChange` | src/pages/Dashboard.tsx:546 | Closing the edit dialog clears the selection; an open request changes nothing. |
| `DashboardController.Dashboard.SelectForDelete` | src/pages/Dashboard.tsx:470 | The delete button selects its record for deletion, and nothing else changes. |
| `DashboardController.Dashboard.DeleteDialogOpenChange` | src/pages/Dashboard.tsx:553 | Closing the delete dialog clears the selection; an open request changes nothing. |
| `DashboardController.Dashboard.HandleDeleteStart` | src/pages/Dashboard.tsx:340-342 | Nothing is sent exactly when no record is selected. Otherwise a DELETE of the selected record's id is sent, and its URL yields the same record id as the record. |
| `DashboardController.Dashboard.HandleDeleteFinish` | src/pages/Dashboard.tsx:342-345 | After a successful delete the selection is cleared and a re-fetch starts. After a failed delete the handler rejects and nothing changes. |
| `DashboardController.Prefill` | src/pages/Dashboard.tsx:59-66 | The form takes the record's `feld_eins` and `feld_zwei`. An absent field, or no record, gives `''`. |
| `DashboardController.FormFields` | src/pages/Dashboard.tsx:74-77 | A submit sends both inputs as present fields, including empty ones. |
| `DashboardController.SubmitRequest` | src/pages/Dashboard.tsx:72-78 | With a record, the submit is a PATCH to that record's URL; without one, a POST to the collection. Either way the payload carries exactly the form's values. |
| `DashboardController.RecordDialog.constructor` | src/pages/Dashboard.tsx:52-66 | A mounted dialog is not submitting. Its form is prefilled from the record when it mounts open, and is empty otherwise. |
| `DashboardController.RecordDialog.Render` | src/pages/Dashboard.tsx:59-66 | A re-render prefills the form only when the dialog is open and `open` or the record changed. Otherwise the values typed so far are kept. |
| `DashboardController.RecordDialog.EditFeldEins` | src/pages/Dashboard.tsx:103 | Typing changes only `feld_eins` of the form. |
| `DashboardController.RecordDialog.EditFeldZwei` | src/pages/Dashboard.tsx:112 | Typing changes only `feld_zwei` of the form. |
| `DashboardController.RecordDialog.BeginSubmit` | src/pages/Dashboard.tsx:68-78 | While a submit is in flight nothing is sent (the submit button is disabled). Otherwise the submit request for the record and the form is sent and the dialog is marked submitting. The form is unchanged. |
| `DashboardController.RecordDialog.EndSubmit` | src/pages/Dashboard.tsx:72-88 | The save succeeds exactly when the response is ok with a JSON body. The dialog then asks to close: the create dialog closes, or the edit selection is cleared. The dashboard then re-fetches. On failure the dashboard is unchanged. The submitting flag drops and the form is kept either way. |
| `DashboardController.DeleteConfirmDialog.constructor` | src/pages/Dashboard.tsx:140 | The dialog starts not deleting. |
| `DashboardController.DeleteConfirmDialog.BeginDelete` | src/pages/Dashboard.tsx:142-145 | While deleting, nothing is sent. With no selected record the dialog asks to close at once. Otherwise the delete of the selected record is sent and the dialog is marked deleting. |
| `DashboardController.DeleteConfirmDialog.EndDelete` | src/pages/Dashboard.tsx:145-154 | On success the selection is cleared and a re-fetch starts. On failure the dialog stays open and the dashboard is unchanged. `deleting` drops either way. |
| `DashboardController.MountAndLoad` | src/pages/Dashboard.tsx:301-316 | Mounting sends one list request. After a successful load the page is the empty state for no records, or otherwise lists them in the stable newest-first order of `SortedRecords`. The recent entries are the first five of that order. |

## Left out

- The `fetch` call itself, its headers and cookie credentials (src/services/livingAppsService.ts:21-26): network I/O. A request is returned as a value and a response is taken as a parameter.
- JSON parsing and serialisation: a `Response` carries its body text together with the result of parsing it (none when it is not JSON), and a request keeps its body as a value instead of as `JSON.stringify`'s text.
- JSON numbers are integers in the model; floating point is not modelled.
- Objects keep their properties in insertion order. JavaScript lists integer-like keys (`"0"`, `"1"`, …) first in ascending order; the record ids the list response is keyed by are not of that form.
- The cast of the list response to typed records: the dashboard receives the outcome of a list as typed `Record`s, because the source casts the untyped body without checking it.
- `localeCompare`'s locale sensitivity (src/pages/Dashboard.tsx:320): it is modelled as plain lexicographic order by character, which agrees with it on fixed-width ISO timestamps.
- date-fns `formatDistance`, `format` and `parseISO` (src/pages/Dashboard.tsx:250-252, 334, 449-453, 499-504): a foreign library that depends on the clock and the locale. The "last updated" label is modelled only up to choosing the date string, and its `catch` of a formatting error is not modelled.
- Toasts, including their messages and the `'Unbekannter Fehler'` wording (src/pages/Dashboard.tsx:75-84, 146-151): presentation. Every error the modelled service raises is an `Error`, so the non-`Error` branch of `fetchData`'s `catch` (src/pages/Dashboard.tsx:308) does not arise in the model.
- JSX rendering, CSS classes, icons, and the markup of the loading, error, empty and entry-card views.
- Mounting and unmounting of the dialogs while the loading page replaces the dashboard: a caller models a remount by constructing a new dialog object.
- The component library under `src/components/ui` is not part of this model, including whatever closing the alert dialog's action button does on its own.
- React effect scheduling and async interleaving beyond the split at each `await`. Two fetches may be in flight at once; `FinishFetch` accepts either order.
- The remote store's semantics (id and timestamp assignment, partial-update merging, delete visibility): owned by the third-party API, whose code is not part of this model.
- The value returned by create and update is passed through unmodelled beyond `CallApi`.
- JavaScript strings are sequences of UTF-16 code units, while a Dafny `string` is a sequence of Unicode scalar values. `OwnEntries` gives a string one entry per scalar value, so a character outside the Basic Multilingual Plane gives one entry where `Object.entries` and the spread give two. Record ids, URLs and hex digits are ASCII, so they are not affected.
- `RecordDialog.Render` compares the new `record` with the previous one by value. The effect's dependency list (src/pages/Dashboard.tsx:66) compares by reference. A different record object with equal contents therefore re-prefills the form in the source, but keeps the typed values in the model.
- `Normalise` and `ListResult` accept a parsed object that repeats a name, and emit one record per repetition. `JSON.parse` never produces such an object, so the model does not promise the source's behaviour for that input.
