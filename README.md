# Application intake handler (`api/apply.js`), modelled in Dafny

The Health Matters Clinic governance site takes board and community-advisory
applications through one serverless endpoint, `api/apply.js`. A submission is
a multipart form. The handler:

- checks that a name and an email are present;
- normalises the other fields;
- uploads every attached file that has a path and a name to a Google Drive folder;
- appends one 22-cell row to the `Submissions` sheet;
- emails the organisation, then acknowledges the applicant by email.

This project models that pipeline and proves properties of it. The outside
services are oracles: Google Drive, Google Sheets, SendGrid, the multipart
parser and the clock. What each one answers is an input of the model, and the
handler's calls to them are returned, in order, as a trace of effects.

Modules, one per part of the program:

- `Wrappers` (`wrappers.dfy`): `Option` and `Result`.
- `JsStrings` (`js_strings.dfy`): the JavaScript built-ins the code relies on, as
  defined by ECMAScript.
  - `Array.prototype.join`.
  - `filter(Boolean)` on strings.
  - `String.prototype.trim`, with its WhiteSpace and LineTerminator set.
  - A `split` used only to state round trips.
- `FormFields` (`form_fields.dfy`): a field value is a string or an array of strings. This module
  holds the three ways the handler reads one: `(v || '').toString()`, `get` and `csv`.
- `Markup` (`markup.dfy`): `html.replace(/<[^>]+>/g, '')` as a left-to-right scan, and markup as a
  sequence of text and tag pieces.
- `DriveUpload` (`drive_upload.dfy`): `uploadFilesToDrive`, an imperative method with the source's
  nested loops over an oracle `seq<Outcome>`.
- `Application` (`application.dfy`): the parts that build the record.
  - The required-field check.
  - The collected values.
  - The reference-field precedence.
  - The file links.
  - The fixed 22-column row.
- `MailText`, `Mail` (`mail.dfy`): the two messages handed to SendGrid. `MailText` holds the fixed wording
  of the acknowledgement template.
- `Config` (`config.dfy`): `reqEnv` and the module-level constants read from the environment.
- `Handler` (`handler.dfy`): `handler(req, res)` as a method. It returns the response and the
  effect trace.

Conventions:

- A JavaScript falsy string property (`undefined`, `null`, `''`) is the empty string.
- A hole in a file list is `NoFile`.
- Drive answers the i-th create call of a request with `drive[i]`. When the
  oracle has no more answers, every further call fails.
- An error the handler catches is a plain `Error` described by its message. For such an error
  `String(err?.message || err)` is `ErrorText`: the message, or `"Error"` when the message is empty.

What the handler does not do, and what it does on failure:

- It has no honeypot field and does not discard zero-byte files.
- It has no special answer for a file over the size limit: the parser rejects the form and the
  handler answers 500 with the parser's error.
- It sends no `Allow` header with a 405.
- It drops failed uploads: the upload result holds only the created files.
- It awaits `emailApplicant` inside the `try`, so a failed acknowledgement email answers 500
  after the row and the organisation's email have gone out. `Handler.Submitted` states this.
- It puts the submitted name and role into the acknowledgement's HTML unescaped. The plain text is
  that HTML with every `<...>` removed, so a bracketed part of a name, as in `Jane <jane@x.org>`,
  is missing from the text. `Mail.ApplicantTextIsVisible` therefore assumes no '<' in them.

## Model

| member | source | states |
|---|---|---|
| JsStrings.Join | api/apply.js:116 | defines `items.join(sep)`: the items with the separator between neighbours; `JoinEmpty`, `JoinNonEmpty`, `JoinAvoids` and `SplitJoin` state its properties |
| JsStrings.Trim | api/apply.js:174-175 | defines `trim` as removing the leading, then the trailing ECMAScript white space; `TrimShape`, `TrimEmptyIff` and `TrimIdempotent` state its properties |
| JsStrings.NonEmpty | api/apply.js:114 | `filter(Boolean)` keeps no empty item, never grows the list, and keeps only items of the input |
| JsStrings.NonEmptyKeeps | api/apply.js:182 | every non-empty item is kept as many times as it occurs |
| JsStrings.NonEmptyAppend | api/apply.js:182 | filtering keeps order: filtering a concatenation filters each part |
| JsStrings.NonEmptyNilIff | api/apply.js:182 | nothing is left exactly when every item is empty |
| JsStrings.NonEmptyIdempotent | api/apply.js:182 | filtering twice is filtering once |
| JsStrings.TrimShape | api/apply.js:174-175 | `trim` removes exactly a white-space prefix and suffix, and the result neither starts nor ends with white space |
| JsStrings.TrimEmptyIff | api/apply.js:174-175 | a string trims to nothing exactly when every character is white space |
| JsStrings.TrimIdempotent | api/apply.js:174-175 | trimming twice is trimming once |
| JsStrings.JoinAvoids | api/apply.js:116 | a character in neither the items nor the separator is not in the join |
| JsStrings.SplitJoin | api/apply.js:116 | splitting the join of a non-empty list on a non-empty separator gives the items back when no item holds the separator's first character |
| FormFields.ToText | api/apply.js:174-175 | `(v \|\| '').toString()`: an array of one item prints as that item and an empty array as ""; `GetPrefixOfToText` relates it to `get` |
| FormFields.Get | api/apply.js:181 | defines `get(k)`; `GetCases` states what it returns case by case |
| FormFields.Csv | api/apply.js:182 | defines `csv(v)`; `CsvCases`, `CsvEmptyIff` and `CsvSegments` state its properties |
| FormFields.GetCases | api/apply.js:181 | `get` gives a string as it is, item 0 of an array, and "" for an empty array or an absent field; it never trims |
| FormFields.GetPrefixOfToText | api/apply.js:174-181 | `get(k)` is a prefix of `fields[k].toString()`, and they agree unless the value is an array of two or more items |
| FormFields.CsvCases | api/apply.js:182 | `csv` gives a string as it is and "" when absent; an array with no empty item is joined with ", " |
| FormFields.CsvEmptyIff | api/apply.js:182 | `csv` of an array is empty exactly when every item is |
| FormFields.CsvSegments | api/apply.js:182 | splitting `csv` of an array on ", " gives the non-empty items in order, with no empty segment, when no item holds ',' and at least one item is non-empty |
| Markup.TagLength | api/apply.js:147 | a match of `<[^>]+>` at the front starts with '<', ends at the first '>' after at least one other character, and holds no '>' inside; and when nothing is matched, the text does not start with '<' followed by a non-'>' character and, later, a '>' |
| Markup.StripTags | api/apply.js:147 | removing the matches never makes the text longer |
| Markup.StripTagsPlain | api/apply.js:147 | text with no '<' is left unchanged |
| Markup.StripTagsAvoids | api/apply.js:147 | stripping adds no character |
| Markup.StripTagsIdempotent | api/apply.js:147 | stripping twice is stripping once |
| Markup.StripRendered | api/apply.js:147 | stripping well-formed markup leaves exactly its text pieces |
| DriveUpload.UploadFilesToDrive | api/apply.js:63-90 | the create calls are one per usable item of the flattened entries, in order, whatever Drive answers; the result is exactly the created files, in call order |
| DriveUpload.RequestsShape | api/apply.js:69-79 | at most one call per item; every call goes to the parent folder with a non-empty name, path and MIME type |
| DriveUpload.RequestsAppend | api/apply.js:66-68 | the calls for two lists of items are the calls for each, one after the other |
| DriveUpload.SkippedItemIsNotCalled | api/apply.js:69 | an item with no descriptor, path or original name causes no call |
| DriveUpload.UsableItemIsCalled | api/apply.js:71-79 | a usable item is created under its original name from its path, with its MIME type or `application/octet-stream` |
| DriveUpload.UploadsBound | api/apply.js:63-90 | the result never holds more files than the `files` object holds items |
| DriveUpload.SuccessesBound | api/apply.js:80-86 | the result never holds more files than there were calls |
| DriveUpload.SuccessesAllCreated | api/apply.js:80-86 | the result has one file per call exactly when every call succeeded |
| DriveUpload.SuccessesGrow | api/apply.js:83-86 | a later failure never removes an earlier success |
| DriveUpload.SuccessesAreTheCreated | api/apply.js:80-86 | a file is in the result exactly when Drive created it at one of the calls |
| Application.RequiredFields | api/apply.js:174-178 | defines the required-field check on the trimmed text of name and email; `RequiredFieldsIff` states when it passes |
| Application.ReferenceName | api/apply.js:201-203 | defines `get(split) \|\| get(combined)`; `ReferencePrecedence` and `ReferenceSources` state its properties |
| Application.Collect | api/apply.js:185-204 | defines the collected values; `RowOfForm` states where each lands in the row |
| Application.Row | api/apply.js:212-219 | the appended row has exactly 22 cells; `RowFollowsColumns` and `RowOfForm` give each cell |
| Application.RequiredFieldsIff | api/apply.js:174-178 | the check passes exactly when name and email each hold a non-space character; it fails with "Missing name or email"; what passes is trimmed |
| Application.RepeatedBlankNamePasses | api/apply.js:174-176 | a name sent as two blank array items prints as "," and passes the check |
| Application.ArrayNameAlwaysPasses | api/apply.js:174-176 | a name sent as an array of two or more items, whatever they hold, prints with a ',' and so passes; the check then depends only on the email |
| Application.ReferencePrecedence | api/apply.js:201-204 | a reference name is the split field when it is non-empty, and the combined field otherwise |
| Application.ReferenceSources | api/apply.js:201-204 | a reference email depends only on its own field, and a reference name only on its split and combined fields |
| Application.FileLink | api/apply.js:208 | a link is never empty |
| Application.FileLinkChoice | api/apply.js:208 | a link is Drive's non-empty view link, or else the `https://drive.google.com/file/d/<id>/view` URL |
| Application.FileLinks | api/apply.js:208 | one link per created file, in order |
| Application.LinksCellEmptyIff | api/apply.js:208-218 | the links cell is empty exactly when no file was created |
| Application.ColumnsDistinct | api/apply.js:212-219 | the row has 22 columns and none appears twice |
| Application.RowFollowsColumns | api/apply.js:212-219 | the row has one cell per column, in column order, each holding that column's value |
| Application.RowOfForm | api/apply.js:185-219 | in the row of a form, name and email are the checked values, role comes from `get`, skills and committees from `csv`, and the last cell is empty exactly when no file was created |
| Mail.OrDefault | api/apply.js:131-132 | `s \|\| d` on strings is `s` when `s` is non-empty and `d` otherwise, so it is empty only when both are |
| Mail.OrgSubject | api/apply.js:107 | defines the organisation's subject; `OrgSubjectParts` states its shape |
| Mail.OrgMail | api/apply.js:106-124 | defines the message `emailOrg` sends; `OrgTextLines` and `OrgHtmlStrips` state its properties |
| Mail.ApplicantMail | api/apply.js:127-148 | defines the message `emailApplicant` sends; `ApplicantMailShape` and `ApplicantTextIsVisible` state its properties |
| Mail.OrgSubjectParts | api/apply.js:107 | the subject is "New <role or Board/CAB> application — <name>", and it ends with the name |
| Mail.LocationCases | api/apply.js:114 | the Location line joins only the non-empty parts of city and state with ", " |
| Mail.FilesLineCases | api/apply.js:115 | the Files line is "Files: None" for no links; otherwise splitting what follows "Files: " on " \| " gives the links back when no link holds a space |
| Mail.OrgTextLines | api/apply.js:108-116 | splitting the text on newlines gives the seven lines back when no field holds a newline |
| Mail.PreStrips | api/apply.js:123 | stripping the tags of `<pre>text</pre>` gives the text back when the text holds no '<' |
| Mail.OrgHtmlStrips | api/apply.js:108-123 | the organisation's HTML, stripped of tags, is its text when no field holds a '<' |
| Mail.ApplicantPiecesWellFormed | api/apply.js:129-141 | the acknowledgement template is well-formed markup when the name, role and URL hold no '<' and the URL no '>' |
| Mail.ApplicantMailShape | api/apply.js:127-148 | the acknowledgement goes to the applicant under the fixed subject; its text is never longer than its HTML; an empty name or role is replaced by its default |
| Mail.ApplicantTextIsVisible | api/apply.js:129-147 | when the name and role hold no '<' and the orientation URL holds neither '<' nor '>', the acknowledgement's text is exactly the template's text pieces with the defaults filled in |
| Config.ReqEnv | api/apply.js:17-21 | `reqEnv` succeeds exactly when the variable is set and non-empty, returns its value, and otherwise fails with "Missing env: <name>" |
| Config.LoadConfig | api/apply.js:23-29 | defines the module's constants, read in order with `reqEnv`; `LoadConfigOkIff`, `LoadConfigFirstMissing` and `LoadConfigValues` state its properties |
| Config.LoadConfigOkIff | api/apply.js:23-28 | loading succeeds exactly when all six required variables are set and non-empty |
| Config.LoadConfigFirstMissing | api/apply.js:23-28 | the error names the first missing variable in reading order |
| Config.LoadConfigValues | api/apply.js:23-29 | the constants are the variables' values, and the orientation URL falls back to its default |
| Handler.ErrorText | api/apply.js:229 | the error text is never empty, and it is the message when there is one |
| Handler.Handle | api/apply.js:152-230 | OPTIONS answers 200 and any method but POST answers 405, both with no effect; a client or parse error answers 500 with no effect; a failed check answers 400 "Missing name or email" with no effect; otherwise the outcome is `Submitted` |
| Handler.Submit | api/apply.js:206-226 | the planned calls run up to and including the first that throws, which gives 500 with its text; when none throws, all run and the answer is 200; an upload failure never ends the request |
| Handler.PlannedShape | api/apply.js:207-224 | the Drive creates come first, in order; then one append of a 22-cell row to `Submissions!A1` of the configured sheet; then the email to the configured address; then the email to the applicant |
| Handler.CreatesGoToFolder | api/apply.js:207 | every create call targets the configured folder and comes before the append |
| Handler.RowAndMailShareLinks | api/apply.js:208-223 | the row's last cell and the organisation's email carry the same links; the cell is empty exactly when nothing was created |

## Left out

- Multipart parsing by formidable, including its 25 MB per-file limit (api/apply.js:48-60). The parsed fields and files, or the parse error, are an input.
- Building the Google clients and decoding the base64 credentials (api/apply.js:32-45). Either step may throw; whether it does, and with what message, is an input.
- `initSendGrid` (api/apply.js:104) is left out: it only stores the key.
- The Drive and Sheets network calls (api/apply.js:75-79, 93-101) are oracles. The model records each call's request and takes its answer as an input.
- The two `sgMail.send` calls (api/apply.js:118, 142) are network I/O. The model records the message handed over, and takes any failure as an input.
- The temporary-file stream and its deletion (api/apply.js:73, 82) are left out, because they are file-system I/O. A failing `createReadStream` counts as a failed upload, like any other error in the `try`. In the source such a failure happens before `drive.files.create` is called, but the model still records a create call for the item and uses up one of Drive's answers, so the trace is not faithful in that case.
- `console.error` logging (api/apply.js:84, 228) is left out.
- Handler.ErrorText: for an `Error` subclass with an empty message the source prints the error's `name` (such as "TypeError"), and for a thrown non-`Error` value it prints `String(value)`, which can be `"undefined"` or `""`. The model describes every caught error by a message string and does not model those cases.
- The append's `valueInputOption: 'USER_ENTERED'` and `insertDataOption: 'INSERT_ROWS'` (api/apply.js:97-98) are not recorded in the `AppendRow` effect. With `USER_ENTERED`, Sheets interprets the cells, so a field starting with `=` becomes a formula. The model treats the cells as plain strings.
- `new Date().toISOString()` (api/apply.js:211) is the `now` parameter.
- The CORS headers (api/apply.js:154-156) are left out as transport detail.
- A failing `reqEnv` throws while the module loads, so no request is ever served. `Config.LoadConfig` returns that error, but `Handler.Handle` takes an already loaded configuration.
- Concurrency is left out. Each `await` finishes before the next statement runs, so the model is sequential.
- DriveUpload.UploadFilesToDrive: `Object.entries` order is the order of the `FilesObj` sequence. A file descriptor's properties are strings, with "" for falsy. The stored result of a create call is reduced to `id`, `name` and an optional `webViewLink`.
- Application.RequiredFields: a field value is a string or an array of strings. Other JSON shapes, which the parser does not produce, are not modelled.
