# StackDrive file core, modelled in Dafny

StackDrive is a cloud file-storage web application. Its only real logic sits in
two places, and this project models both of them:

- the utility library's two string classifiers: the category a file is filed
  under, derived from its MIME type, and the category key a dashboard page name
  stands for;
- the file API route's three handlers:
  - searching the caller's own files by name;
  - listing one page of a category, of "all" files or of "shared" files;
  - admitting an upload, recording the new file and charging its size to the
    caller's subscription.

Modules, one per concern:

- `Options`: an optional value, for an absent query parameter, session or document.
- `JsString`: the JavaScript string behaviour the route relies on. This is
  `String.prototype.trim()` and the case-insensitive name match of a search.
- `Utils`: `getCategoryFromMimeType` and `generatePageKey`.
- `Documents`: the stored file record and the document-store query semantics
  the route uses. A filter document has the fields the route sets. On top of it
  are `find`, `countDocuments`, sorting by `createdAt` descending, and skip/limit.
- `FileRoute`: the three handlers, the page constant `FILE_SIZE = 9` (here
  `PageSize`), and a `Database` class holding the two collections the upload
  handler changes.

The session provider, the clock and the upload service are inputs:

- the session is an `Option<Session>`;
- the creation time of a new record is a parameter `now`;
- the upload service's answer (id, name, MIME type, content id, size) is an
  `UploadData` parameter.

The read-only handlers take the stored file records as a sequence. The upload
handler is a method on `Database`, whose fields are the file sequence and the
subscriptions keyed by subscriber id.

The model keeps two behaviours of the code that a reader might expect to
be otherwise:

- Admission checks only `selectedStorage <= usedStorage`. It does not check the
  incoming size, and the check is separate from the increment. So `usedStorage`
  can exceed `selectedStorage` after a successful upload
  (`AdmissionIgnoresUploadSize`).
- There is no permission evaluation, rename, delete, quota release or share
  operation in the core code, so none is modelled.

One behaviour differs from the code on purpose. The code hands the search term
to a regular-expression match. The model matches it as a literal substring,
ignoring the case of ASCII letters only (see "## Left out").

## Model

| member | source | states |
|---|---|---|
| `Utils.GetCategoryFromMimeType` | src/lib/utils.ts:35-48 | Total; the result is one of the five FileCategory values; "document" exactly for the string "application/pdf"; "video"/"image"/"audio" exactly when the MIME type starts with "video/"/"image/"/"audio/"; "other" exactly when none of these holds |
| `Utils.MediaPrefixesExclusive` | src/lib/utils.ts:41-45 | No MIME type starts with two of the three media prefixes, so at most one prefix branch can fire |
| `Utils.ClassifierExamples` | src/lib/utils.ts:39-47 | pdf/mp4/png/mp3 land in their categories; "application/zip", a pdf type with parameters, "Video/mp4" and "video" are "other" (exact pdf match, case-sensitive prefixes) |
| `Utils.GeneratePageKey` | src/lib/utils.ts:50-60 | "documents", "images", "videos", "others" map to their singular category; every other name is returned unchanged; the result is never one of the four plural names |
| `Utils.PageKeyPassThroughExamples` | src/lib/utils.ts:59 | "all", "shared", "audio" and "document" come back unchanged |
| `Utils.GeneratePageKeyIdempotent` | src/lib/utils.ts:50-60 | Applying the page-key mapping twice equals applying it once |
| `Utils.CategoryIsPageKeyFixpoint` | src/lib/utils.ts:37-60 | Every category produced from a MIME type is left unchanged by the page-key mapping |
| `JsString.TrimStart` | src/app/api/v1/_routes/file.route.ts:23 | Leading half of `trim()`: the result is a suffix of the input; what was dropped is all white space; the result does not start with white space |
| `JsString.TrimEnd` | src/app/api/v1/_routes/file.route.ts:23 | Trailing half of `trim()`: the result is a prefix of the input; what was dropped is all white space; the result does not end with white space |
| `JsString.TrimEmptyIffBlank` | src/app/api/v1/_routes/file.route.ts:23 | `Trim` (`trim()`, the composition of `TrimStart` and `TrimEnd`) yields "" exactly when every character of the term is white space |
| `JsString.EmptyPatternMatchesEverything` | src/app/api/v1/_routes/file.route.ts:23-31 | A sanity fact about the substring stand-in for `$regex`: an empty term matches every name, which is what the blank-term refusal prevents |
| `JsString.MatchIgnoresPatternCase` | src/app/api/v1/_routes/file.route.ts:31 | A sanity fact about the substring stand-in for `$regex` with the "i" option: the match does not depend on the case of the term's ASCII letters |
| `Documents.Find` | src/app/api/v1/_routes/file.route.ts:29-32 | A find returns exactly the stored records that satisfy every field of the filter, and no more records than are stored |
| `Documents.InsertByCreatedDesc` | src/app/api/v1/_routes/file.route.ts:66 | Inserting into a newest-first sequence keeps it newest first and adds exactly that record |
| `Documents.SortByCreatedDesc` | src/app/api/v1/_routes/file.route.ts:66 | The sorted records are ordered by createdAt descending and are a permutation of the input |
| `Documents.SkipLimit` | src/app/api/v1/_routes/file.route.ts:64-65 | Skip then limit yields at most `limit` records: exactly those at positions skip, skip+1, ... that exist |
| `FileRoute.SearchFiles` | src/app/api/v1/_routes/file.route.ts:19-34 | No session gives 401 whatever the term; otherwise a missing or blank term gives 400; success exactly when a session and a non-blank term are present; then the result holds exactly the caller's records whose name matches the term |
| `FileRoute.PageOrDefault` | src/app/api/v1/_routes/file.route.ts:45 | A NaN or zero page number becomes 1; any other number is used as is; a non-negative input gives a page of at least 1 |
| `FileRoute.TotalPages` | src/app/api/v1/_routes/file.route.ts:75 | The ceiling of total/9: the pages hold all records, one page fewer would not, and there are zero pages exactly when there are zero records |
| `FileRoute.PageOf` | src/app/api/v1/_routes/file.route.ts:64-65 | Page p holds exactly the records at positions (p-1)*9 onwards, up to 9 of them: as many as exist there, and none when (p-1)*9 is past the end |
| `FileRoute.RecordOnItsPage` | src/app/api/v1/_routes/file.route.ts:63-75 | Record i of the sorted scope is on page i/9+1, at position i%9, and that page is within totalPages |
| `FileRoute.PageEmptyIffPastLast` | src/app/api/v1/_routes/file.route.ts:63-75 | A page is empty exactly when its number exceeds totalPages |
| `FileRoute.FindSelectsScope` | src/app/api/v1/_routes/file.route.ts:54-63 | A find with a filter that agrees with the category scope on every record returns the scope's records in order |
| `FileRoute.InScopeMembers` | src/app/api/v1/_routes/file.route.ts:54-60 | The scope holds exactly the stored records that satisfy the category scope rule |
| `FileRoute.BuildCategoryQuery` | src/app/api/v1/_routes/file.route.ts:54-60 | The filter matches a record exactly when the scope rule holds. "shared" requires the caller's email among the share entries, with no owner or category condition. "all" requires the caller as owner. Any other value requires the caller as owner and that category, verbatim |
| `FileRoute.ListByCategory` | src/app/api/v1/_routes/file.route.ts:41-77 | No session gives 401, whatever the page, and nothing else fails; total (`Documents.CountDocuments`, the length of the find) counts the whole scope regardless of page; files is the requested page of the scope sorted newest first, at most 9 records, each stored and in scope; totalPages is the ceiling of total/9; currentPage is the page used |
| `FileRoute.UploadAdmission` | src/app/api/v1/_routes/file.route.ts:91-105 | No session gives 401 Unauthorized. With a session, a missing, non-"free" or non-"activated" subscription gives 401 SubscriptionIssue. An active free plan with selectedStorage <= usedStorage gives 400 StorageLimitExceeded, and only such a plan does. Admitted exactly when the subscription exists, is "free", is "activated" and has usedStorage below selectedStorage |
| `FileRoute.NewFileRecord` | src/app/api/v1/_routes/file.route.ts:110-120 | The created record is owned by the caller, has the uploaded size, is shared with nobody, and is filed under the MIME type's category, which is one of the five |
| `FileRoute.ChargeUpload` | src/app/api/v1/_routes/file.route.ts:122 | usedStorage grows by exactly the uploaded size and no other subscription field changes |
| `FileRoute.TotalSizeAppend` | src/app/api/v1/_routes/file.route.ts:112-122 | Appending a record adds its size to its owner's total stored size and leaves every other user's total alone |
| `FileRoute.UploadKeepsUsageInSync` | src/app/api/v1/_routes/file.route.ts:103-122 | After an admitted upload, any subscriber whose usedStorage equalled the size of their files still has that equality |
| `FileRoute.AdmissionIgnoresUploadSize` | src/app/api/v1/_routes/file.route.ts:103-122 | A plan with one unit left admits a five-unit file, and its usedStorage then exceeds selectedStorage |
| `FileRoute.UploadedRecordListings` | src/app/api/v1/_routes/file.route.ts:54-60 | A freshly uploaded record is in its owner's "all" listing and in its own category's listing, and in nobody's "shared" listing |
| `FileRoute.Database.Upload` | src/app/api/v1/_routes/file.route.ts:91-124 | A refused upload returns the admission refusal and changes nothing. An admitted one appends exactly one new record and returns it with its category. It adds the uploaded size to the caller's usedStorage; nothing else in any subscription changes. It keeps usedStorage in sync with the stored sizes |

## Left out

- Permission evaluation, per-action grants, sharing, rename, delete and quota
  release have no code in the modelled files, so they are not modelled.
- Regular-expression semantics of the search: the term is a `$regex` pattern.
  The model matches it as a literal substring, ignoring ASCII letter case.
  Metacharacters, and case folding beyond A-Z, are not modelled.
- `Number(...)` parsing of the page parameter is not modelled. Its result is an
  input that is NaN or an integer. When a session is present,
  `FileRoute.ListByCategory` requires that integer to be non-negative: negative or fractional pages reach the store's
  skip unchecked, and the store's behaviour on them is not visible.
- Records with equal `createdAt`: the store gives no order for them. The model
  keeps them in collection order.
- Subscriptions are a map keyed by subscriber id. This assumes at most one
  subscription per subscriber, where `findOne` would take the first.
- Concurrency: the race between the admission check and the separate
  `$inc` of two concurrent uploads is outside a sequential model.
- The 500 paths: thrown errors from the store or the upload service, and
  `parseError` (runtime `instanceof` tests on platform types).
- The store calls, the session provider and the upload service call are inputs
  or state, not modelled code. The file blob and the `keyvalues({ userId, name })`
  metadata sent to the upload service are not modelled. Its answer's id and
  name are modelled: they become the record's `pinataId` and `name`.
- `FileRoute.NewFileRecord` and `FileRoute.UploadedRecordListings` take a new
  record's `sharedWith` to be the empty list. The create call passes no
  `sharedWith`, so this is assumed to be the store schema's default. The schema
  is not part of this model.
- The rest of the utility library: `formatFileSize` (floating point),
  `cn` (class-name merging), `dynamicDownload` (DOM), `ActionResponse` (JSON
  round trip) and `formatDate` (locale formatting).
- UI components, pages, the contact e-mail route and configuration files.
