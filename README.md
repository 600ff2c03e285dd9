# School records API: a Dafny model

This project models the server route `pages/api/schools/index.js` of the School-Portal
application. The route has two operations:

- `GET /api/schools` lists the stored schools.
- `POST /api/schools` takes a multipart form and stores one school record with an optional
  uploaded image.

Any other HTTP method gets `405` with `Allow: GET, POST`.

On every request the route picks a store:

- the MySQL database, when all four `MYSQL_*` variables are set;
- the JSON document `data/schools.json` otherwise.

The model is written per component of that file:

- `Wrappers` (`wrappers.dfy`): the `Option` type used for `undefined`/`null`.
- `JsText` (`js_text.dfy`): `String.prototype.trim`, with ECMAScript's whitespace and
  line-terminator characters.
- `PosixPath` (`posix_path.dfy`): Node's POSIX `path.basename`, and `path.posix.join` of
  `/schoolImages` with one file name.
- `BackendSelection` (`backend_selection.dfy`): `hasMysqlEnv` over the process environment. The
  environment is a map; an unset variable is a missing key.
- `Upload` (`upload.dfy`): the multipart filter predicate, the 5 MiB cap and the image-path
  derivation from formidable's file metadata.
- `Fields` (`fields.dfy`): normalisation of the form fields and the required-field check.
- `JsonStore` (`json_store.dfy`): the school record, the next-id rule, and the `FileStore` class.
  `FileStore.file` is the state of the JSON file (missing, unparseable, or an array).
  Its methods `EnsureJsonStore`, `ReadJsonSchools`, `WriteJsonSchools` and `Create` mirror the
  route's helpers and its create path.
- `SchoolsRoute` (`schools_route.dfy`): the method dispatch and the handler as methods over a
  `FileStore`.

Things the route cannot see become inputs:

- The database is a `SqlServer` value. It holds the answers the database gives to one request:
  whether `ensureSchema` succeeds, the rows of the listing query, and the `insertId` of the insert.
- The handler also returns the list of statements it sent, so a contract can say that no insert
  happened.
- `FileStore.writable` stands for the file system accepting the store's writes.

The route behaves as follows, and the model follows it:

- `hasMysqlEnv` runs again on every request. It is not a one-time choice at start-up.
- The JSON store lists records in stored (insertion) order. Only the SQL query orders by id
  descending, and it returns only `id, name, address, city, image`.
- There is no lock around the JSON read-modify-write.
- The uploaded file is written before validation, and nothing removes it after a 400.
- `contact` is not checked against a 7–15 digit pattern on the server.

## Model

| member | source | states |
|---|---|---|
| `JsText.TrimStart` | pages/api/schools/index.js:82-87 | the result is a suffix of the input, only whitespace was removed, and it does not start with whitespace |
| `JsText.TrimEnd` | pages/api/schools/index.js:82-87 | the result is a prefix of the input, only whitespace was removed, and it does not end with whitespace |
| `JsText.Trim` | pages/api/schools/index.js:82-87 | `trim()` gives a contiguous piece of the input with only whitespace on each side of it removed, and no whitespace at either end |
| `JsText.TrimKeepsTrimmed` | pages/api/schools/index.js:82-87 | a string with no whitespace at its ends is unchanged by `trim()` |
| `JsText.TrimIdempotent` | pages/api/schools/index.js:82-87 | trimming twice equals trimming once |
| `JsText.TrimEmptyIff` | pages/api/schools/index.js:82-89 | a trimmed field is empty exactly when the raw text is all whitespace |
| `PosixPath.StripTrailingSlashes` | pages/api/schools/index.js:97 | removes exactly the run of `/` at the end of the path |
| `PosixPath.LastSegment` | pages/api/schools/index.js:97 | the part after the last `/`: a suffix with no `/`, preceded by a `/` when shorter than the path |
| `PosixPath.Basename` | pages/api/schools/index.js:97 | `path.basename` never contains `/`; it is empty exactly when the path is empty or only slashes; a path without `/` is its own basename; the result is the last `/`-separated piece of the path once trailing slashes are dropped |
| `PosixPath.JoinImageDir` | pages/api/schools/index.js:99 | joining `/schoolImages` with one segment gives an absolute path |
| `PosixPath.JoinImageDirSeparators` | pages/api/schools/index.js:99 | for a segment other than `.` and `..`, the join is `/schoolImages/` followed by the segment, with no further `/` |
| `BackendSelection.HasMysqlEnv` | pages/api/schools/index.js:26-33 | true exactly when each of `MYSQL_HOST`, `MYSQL_USER`, `MYSQL_PASSWORD`, `MYSQL_DATABASE` is present and non-empty |
| `BackendSelection.SelectBackend` | pages/api/schools/index.js:64 | the store a GET or POST uses (lines 64 and 103) is the database exactly when all four settings are present and non-empty; the handler methods branch on it |
| `BackendSelection.PartialConfigSelectsJsonFile` | pages/api/schools/index.js:26-33 | one missing or empty setting selects the JSON file, whatever the others hold |
| `BackendSelection.FullConfigSelectsRelational` | pages/api/schools/index.js:26-33 | all four settings present and non-empty select the database |
| `BackendSelection.SelectionDependsOnlyOnMysqlKeys` | pages/api/schools/index.js:26-33 | environments that agree on the four settings select the same store |
| `Upload.MaxFileSizeIsFiveMebibytes` | pages/api/schools/index.js:47 | the upload cap is 5·1024·1024 = 5242880 bytes |
| `Upload.Accepts` | pages/api/schools/index.js:48 | a part sent under the field name `image` is kept; a part whose content type begins with `image/` is kept; any other part is refused |
| `Upload.AcceptsWithoutMimetype` | pages/api/schools/index.js:48 | a part with no content type is kept only when its field name is `image` |
| `Upload.AcceptsOtherFieldByMimetype` | pages/api/schools/index.js:48 | a part under any other field name is kept exactly when its content type starts with `image/` |
| `Upload.ChosenFile` | pages/api/schools/index.js:94-95 | no file when `files.image` is absent or an empty array; otherwise the single file, or the first element of the array |
| `Upload.StoredName` | pages/api/schools/index.js:97 | the first of `newFilename`, `originalFilename`, `filepath` that is set and non-empty; `''` exactly when none of them is |
| `Upload.ImageRelPath` | pages/api/schools/index.js:93-101 | every image path the route derives is absolute |
| `Upload.ArrayUsesFirstFile` | pages/api/schools/index.js:94-95 | an array of files contributes its first element only; an empty array gives `null` |
| `Upload.ImageRelPathNullIff` | pages/api/schools/index.js:93-101 | `image` is `null` exactly when no file came or the chosen name is empty or only slashes |
| `Upload.UnnamedFileHasNoPath` | pages/api/schools/index.js:96-98 | a file with none of `newFilename`, `originalFilename`, `filepath` set gets `null` |
| `Upload.PlainNameKeptUnderImageDir` | pages/api/schools/index.js:97-99 | a plain `newFilename` becomes `/schoolImages/<newFilename>` unchanged |
| `Upload.ImagePathUnderImageDir` | pages/api/schools/index.js:93-101 | every image path is `/schoolImages/<name>` with no `/` in `<name>`, except `/schoolImages` and `/` (from `.` and `..`) |
| `Fields.TextField` | pages/api/schools/index.js:82-85 | a text field has no whitespace at its ends, is `''` when absent, and is empty exactly when the raw value was all whitespace |
| `Fields.ContactField` | pages/api/schools/index.js:86 | `contact` is `null` exactly when the field is missing or empty; otherwise it is the submitted text unchanged |
| `Fields.NormalizeFields` | pages/api/schools/index.js:82-87 | a missing `email_id` becomes `''`; `contact` is `null` exactly when missing or empty |
| `Fields.NormalizedTextTrimmed` | pages/api/schools/index.js:82-87 | none of `name`, `address`, `city`, `state`, `email_id` begins or ends with whitespace after normalisation |
| `Fields.ValidateSubmission` | pages/api/schools/index.js:89-91 | a submission passes exactly when each of `name`, `address`, `city`, `state` was sent with a non-whitespace character; it then yields the normalised fields |
| `Fields.BlankIffNotProvided` | pages/api/schools/index.js:82-89 | a field trims to `''` exactly when it was missing or all whitespace |
| `Fields.BlankRequiredFieldRefused` | pages/api/schools/index.js:89-91 | leaving out or blanking any one required field refuses the submission |
| `Fields.ContactKeptUnchecked` | pages/api/schools/index.js:86 | any non-empty `contact` is kept, with no digit check |
| `JsonStore.MaxId` | pages/api/schools/index.js:114 | the maximum of the ids, a missing id counted as 0: at least every id and equal to one of them |
| `JsonStore.NextId` | pages/api/schools/index.js:114 | `1` for an empty array; otherwise one more than some existing id and greater than every existing id |
| `JsonStore.NewSchool` | pages/api/schools/index.js:115 | the new record carries the given id, and its values read back are the normalised submission and the image path unchanged |
| `JsonStore.Created` | pages/api/schools/index.js:114-116 | the array grows by exactly one record at the end; earlier records are unchanged; the new record has the next id and the normalised fields |
| `JsonStore.NextIdIsFresh` | pages/api/schools/index.js:114 | the new id differs from every id already stored |
| `JsonStore.CreatedKeepsIdsIncreasing` | pages/api/schools/index.js:113-117 | a create keeps ids increasing in stored order |
| `JsonStore.NextIdAfterNumbered` | pages/api/schools/index.js:114 | when the ids are 1..n, the next id is n+1 |
| `JsonStore.CreateAllNumbersConsecutively` | pages/api/schools/index.js:113-118 | creates run one after another from a store numbered 1..n leave the ids 1..n+N, with no gap and no repeat |
| `JsonStore.FileStore.EnsureJsonStore` | pages/api/schools/index.js:7-11 | a missing file becomes `[]` when writes succeed; the call fails only for a missing file that cannot be written; an existing file is untouched |
| `JsonStore.FileStore.ReadJsonSchools` | pages/api/schools/index.js:12-20 | returns the stored array, `[]` for an unparseable or just-created file; fails only when the file is missing and cannot be created |
| `JsonStore.FileStore.WriteJsonSchools` | pages/api/schools/index.js:21-24 | replaces the whole file with the array when writes succeed, and changes nothing otherwise |
| `JsonStore.FileStore.Create` | pages/api/schools/index.js:113-118 | on success returns the next id, and the file holds the old array plus exactly the new record at the end; when writes fail nothing changes |
| `SchoolsRoute.RouteOf` | pages/api/schools/index.js:62-126 | `GET` and `POST` are recognised by exact, case-sensitive comparison; every other method takes the 405 route |
| `SchoolsRoute.HandleGet` | pages/api/schools/index.js:62-76 | database mode: 200 with the query rows, or 500 `Failed to fetch schools`; the JSON file is untouched. File mode: 200 with the stored array in stored order, no SQL sent |
| `SchoolsRoute.StoreSubmission` | pages/api/schools/index.js:103-118 | database mode: one insert of the normalised fields and image, then 201 with `insertId` or 500; the file is untouched. File mode: 201 with the next id after the JSON create, or 500 with the file unchanged |
| `SchoolsRoute.HandlePost` | pages/api/schools/index.js:78-123 | a rejected parse gives 500 `Failed to add school`; a failed required-field check gives 400 `Missing required fields`, and neither store is touched; otherwise as `StoreSubmission` |
| `SchoolsRoute.Handle` | pages/api/schools/index.js:61-127 | GET is 200 or 500, with the database rows or the stored array exactly as `HandleGet` states; POST is 201, 400 or 500, with 400 exactly on a failed required-field check, and otherwise exactly as `HandlePost` states (the record stored and the id answered, the insert sent in database mode, no statement after a parse rejection or a 400); any other method is 405 with `Allow: GET, POST` and touches nothing |
| `SchoolsRoute.PostThenGet` | pages/api/schools/index.js:61-127 | in file mode, a successful POST followed by a GET lists the earlier records and then the new record, with the submitted values and the answered id |

## Left out

- File system I/O (`existsSync`, `mkdirSync`, `readFileSync`, `writeFileSync`): the file is the
  `FileState` value, and one `writable` flag stands for every write succeeding or failing.
  A write that fails halfway is not modelled.
- The upload directory: the route creates it itself when it is missing (lines 50-52), and
  formidable writes the uploaded file into it. The model does not represent that directory. So the
  file left behind after a 400 or a 500 is not modelled; the model has no cleanup step, and
  neither does the code.
- `JSON.parse` / `JSON.stringify`: the file is either an array of records or unparseable. A file
  holding other valid JSON, such as `{}` or `null`, is not modelled.
- Record values of other types are not modelled. For example, a string or `NaN` id makes
  `Math.max` behave differently.
- `JsonStore.NextId`: ids are JavaScript numbers and `Math.max(...) + 1` is floating-point
  addition. The model takes ids to be integers below 2^53, where `+ 1` is exact. A fractional id
  (1.5 gives 2.5) and an id of 2^53 or more (where `+ 1` can give back the same number) are not
  modelled.
- `JsonStore.NextIdIsFresh`: holds only for integer ids below 2^53, as for `JsonStore.NextId`. A
  stored id of 9007199254740992 (2^53) makes the code give the new record that same id.
- `JsonStore.CreatedKeepsIdsIncreasing`: holds only for integer ids below 2^53, as for
  `JsonStore.NextId`. Once the largest id reaches 2^53, the new record can repeat it.
- formidable's multipart parsing, file naming and size enforcement: a rejected parse is the
  `None` form and answers 500. Only the filter predicate and the size constant are modelled.
  Form fields are single strings; formidable's arrays of values are not modelled.
- MySQL (`getPool`, `ensureSchema` in `@/lib/db`, which is not part of this model): the database's
  answers are inputs. Its ordering by id and its auto-increment ids are not modelled.
- `Fields.ContactField`: `Number(fields.contact)` is a floating-point conversion and is not
  modelled. A present contact keeps its raw text, standing for the number produced. A text that is
  not a number, such as `abc`, becomes `NaN`, and `JSON.stringify` (line 23) writes `NaN` as
  `null`.
- `SchoolsRoute.PostThenGet`: the listed record carries the contact as the model holds it. For a
  non-numeric contact, the code's file-mode GET lists `contact: null` after such a POST, while the
  model lists the submitted text.
- Concurrent requests: the model is sequential. `CreateAllNumbersConsecutively` describes creates
  run one after another. Two interleaved read-modify-write cycles could still repeat an id in the
  code, since it has no lock.
- `path.basename` on Windows (the win32 variant also splits on `\`): the POSIX behaviour is
  modelled.
- `PosixPath.JoinImageDir`: only the join of `/schoolImages` with a single segment is modelled.
  It is the route's only `path.posix.join`. The `path.join` calls of lines 6 and 42 build
  file-system paths, and they are left out with the file system.
- `Math.max` with very many arguments (a `RangeError` from the spread) is not modelled.
- `console.error` logging and the `config` export (the body parser switched off) are not
  modelled.
