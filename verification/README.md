# Capital Family Clinic: verified model of the data-shaping rules

The clinic administration front end (a Flask application over a MySQL
database) passes almost everything straight to SQL and stored procedures.
The handlers in `app.py` do a small amount of shaping of their own, and
this project models that part in Dafny:

- **Form normalisation** (`fields.dfy`, `forms.dfy`). On create and update,
  a phone value of exactly ten characters is stored as `NNN-NNN-NNNN`. A
  state code is upper-cased. A foreign key that `int()` rejects becomes
  NULL. On the update forms, an empty date or date-time becomes NULL. On
  creation of a scheduled test, the "Select a result" placeholder becomes
  NULL. The "get form data / cleanse data" block of each of the seven
  create/update handlers that normalise a field (clinic create and update,
  patient create and update, appointment update, scheduled-test create and
  update) is a function from the submitted form to the procedure's
  arguments. A missing field makes the handler flash an error and
  redirect without calling the procedure; the model returns `None` for
  that case.
- **Export** (`export.dfy`). `convert_data` turns a result set into a
  header row followed by one row of values per result row. The `/export`
  workbook holds four such sheets. Any report with no rows makes
  `convert_data` raise, and the route then redirects home.
- **Chart** (`chart.dfy`). The scheduled-tests page seeds a dictionary with
  0 for every catalog test name, then adds one per scheduled-test row.
  `labels` is the catalog and `data` is the dictionary's values. A row
  naming a test outside the catalog raises `KeyError`.
- **Pages** (`pages.dfy`). A present, non-empty `id` query parameter
  selects the `"Update"` form. Otherwise the form is `"Add"`, or `""` on
  the statuses and results pages, which can only edit. A read failure, or
  an `id` that matches no record (`fetchall()[0]` on an empty result),
  renders the page with empty collections and `error=True`.

The code checks the phone value's length only: ten letters are dashed
just like ten digits. The model follows the code here, not a "10-digit"
reading of the rule.

## Model

| member | source | states |
|---|---|---|
| `Fields.FormatPhone` | app.py:215-218 | a ten-character value becomes a 12-character value with dashes at positions 3 and 7, and removing them gives the input back; any other length is stored unchanged |
| `Fields.FormatUndash` | app.py:316-325 | every `NNN-NNN-NNNN` value is the formatting of the ten characters it carries, so formatting is a bijection onto dashed values |
| `Fields.FormatPhoneIdempotent` | app.py:746-755 | re-submitting an already formatted number (as a pre-filled update form does) leaves it unchanged |
| `Fields.Upper` | app.py:212 | the stored state code has no lower-case letter, equals the input when letter case is ignored, and keeps every non-lower-case character in place |
| `Fields.UpperFixesUpper` | app.py:305-307 | a code without lower-case letters is stored as typed |
| `Fields.UpperIdempotent` | app.py:305-307 | upper-casing twice equals upper-casing once |
| `Fields.UpperUnique` | app.py:212 | the upper-cased code is the only case-insensitive equivalent of the input without lower-case letters |
| `Fields.ParseIntCorrect` | app.py:546-559 | the `int()`-or-`None` coercion yields a value exactly for an optional sign followed by decimal digits, and that value is the integer the digits denote (negated after `-`) |
| `Fields.ParseFormatInt` | app.py:1323-1336 | every integer written in decimal, as the drop-downs submit ids, is read back as itself |
| `Fields.BlankToNone` | app.py:543-544 | an empty date-time is NULL; any other text is kept unchanged |
| `Fields.PlaceholderToNone` | app.py:1276-1277 | the "Select a result" placeholder is NULL; any other text is kept unchanged |
| `Fields.AbsentResultIsNotInt` | app.py:1333-1336 | the placeholder and the empty string are both NULL through `int()` as well |
| `Forms.ParseIntObeysRule` | app.py:678-681 | every coerced foreign key is NULL exactly when the text is not an integer literal, and otherwise the integer it denotes |
| `Forms.CreateClinic` | app.py:209-218 | the insert goes ahead exactly when all five fields are present; the state code is upper-cased, the phone follows the phone rule, and the other fields are passed as typed |
| `Forms.UpdateClinic` | app.py:293-327 | the update also needs `clinicId`, passes it as typed, and normalises the other fields exactly as creation does |
| `Forms.CreatePatient` | app.py:665-681 | all seven fields are required; the phone follows the phone rule, the primary clinic is NULL unless an integer, and the birth date is passed as typed, even when empty |
| `Forms.UpdatePatient` | app.py:733-777 | the update also needs `patientId`; the birth date is NULL exactly when empty and is otherwise passed as typed; every other field is normalised as on creation |
| `Forms.UpdateAppointment` | app.py:539-559 | the date-time is NULL exactly when empty; the clinic, patient and status keys each follow the integer rule |
| `Forms.CreateScheduledTest` | app.py:1271-1277 | only the "Select a result" placeholder becomes NULL; the appointment and test ids are passed as typed |
| `Forms.UpdateScheduledTest` | app.py:1320-1336 | the appointment, test and result keys each follow the integer rule |
| `Forms.PlaceholderResultIsNull` | app.py:1276-1277 | a result drop-down left at its placeholder stores NULL on creation and on update alike |
| `Export.ConvertData` | app.py:142-147 | an empty result set fails; otherwise the table has one more row than the result set, starts with the first row's column labels, and row `i + 1` holds row `i`'s values in column order |
| `Export.TableIsAligned` | app.py:142-147 | when all rows share the first row's columns, every value row is as wide as the header and each value sits under the label of the column it came from |
| `Export.ExportWorkbook` | app.py:121-131 | the workbook exists exactly when all four reports have rows; its sheets are Clinics, Patients, Appointments and Scheduled Tests, in that order, each tabulating its report; otherwise the failure names the first empty report |
| `Chart.FirstOccurrences` | app.py:1219-1220 | the dictionary's key order: each catalog name once, no repeats, and nothing else |
| `Chart.FirstOccurrencesOfDistinct` | app.py:1218-1220 | with distinct catalog names, the key order is the catalog order |
| `Chart.CountsOf` | app.py:1227 | `data[j]` is the number of rows naming key `j` |
| `Chart.CountOfAbsent` | app.py:1219-1225 | a name that no row carries keeps the count 0 it was seeded with |
| `Chart.SumOfCounts` | app.py:1222-1225 | when every row names a key, the counts add up to the number of rows |
| `Chart.SeedCounts` | app.py:1217-1220 | after the first loop every catalog name is a key with count 0, and the keys are in first-occurrence order |
| `Chart.TallyRows` | app.py:1222-1225 | the second loop fails exactly when some row names a test that is not a key, reporting the first such name; otherwise each key holds the number of rows naming it |
| `Chart.CountScheduledTests` | app.py:1217-1227 | `labels` is the catalog; `data` counts the rows per key in key order and sums to the row count; with distinct names `data` is parallel to `labels`, holds each label's row count, and gives 0 to a test with no rows; an unknown test name is a failure, reporting the first such name |
| `Chart.TwoCbcRows` | app.py:1217-1227 | a catalog of "CBC" and "Lipid Panel" with two "CBC" rows charts as `[2, 0]` |
| `Pages.FormAction` | app.py:168-181 | the form is `"Update"` exactly when `id` is present and not empty; otherwise `""` on an edit-only page and `"Add"` elsewhere |
| `Pages.ListPage` | app.py:152-192 | a failed query, or an `id` matching no record, renders empty collections with `action=""` and the error flag; otherwise the listing, the form mode, and the first matching record when an id is given |
| `Pages.ScheduledTestsPage` | app.py:1198-1255 | the page is in error exactly when a query fails, the id matches nothing, or a row names a test outside the catalog, and then carries no data and no chart; otherwise it carries the chart of `Chart.CountScheduledTests` and the selected form |

## Left out

- SQL text, `DATE_FORMAT`/`CONCAT` formatting and the stored procedures. The external database runs them, so their effects are not visible at this layer. The Forms functions end at the argument tuple handed to a procedure.
- The connection lifecycle and the query wrapper in `database/db_connector.py`. These are driver plumbing and environment loading. `database/db_connector.py` is not part of this model.
- Flask routing, `render_template`, `flash`, `redirect`/`url_for` and `request.referrer`. Views are modelled as the values handed to the template.
- The `/reset` route. It calls `sp_load_clinicdb()` with no argument and redirects to the referring page, or home when there is none; it shapes no data.
- The delete handlers. Each passes the single `id_to_delete` form value to a stored procedure and shapes nothing.
- The spreadsheet response. `ExportWorkbook` stops at the sheet contents; building the xlsx file is a library call.
- The `id` value interpolated into the single-record SELECTs. It only shapes SQL text; the model takes the lookup's result rows as input.
- `static/script.js`: DOM event wiring and row filtering in the browser.
- The handlers that pass fields through untouched. `create_appointment` and `create_test` hand the raw form text to their procedures. `update_test`, `update_status` and `update_result` wrap their field in `str(...)` inside `try/except ValueError`; `str` of form text never raises, so those `None` branches are dead. The same dead branches in the clinic and patient update handlers are not modelled either.
- Fields.ParseInt: accepts only an optional `+`/`-` followed by ASCII digits. Python's `int()` also strips surrounding whitespace, allows `_` between digits and accepts other Unicode decimal digits; those inputs yield `None` here where Python would give a number.
- Fields.Upper: changes only the ASCII letters `a`-`z`. Python's `str.upper()` also maps other scripts, and can lengthen a string (`ß` becomes `SS`).
- Chart.CountScheduledTests: takes the scheduled-test rows as their "Test Name" column and the catalog as its `name` column. A row lacking that key (not possible for rows of this query) is not modelled.
- Pages.ListPage: the patients page's error render leaves its patient list undefined rather than empty. The model renders it as empty, like every other page.
- With repeated catalog names the dictionary holds fewer keys than `labels` has entries, so `data` is shorter than `labels`. `Chart.CountScheduledTests` states that behaviour; its parallel-sequence clause is stated only for distinct names.
