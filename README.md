# ExcelOpen upload handler, modelled in Dafny

ExcelOpen is a small Flask service: a client posts an `.xlsx` or `.xls`
spreadsheet to `/upload`, the server saves it to an `uploads` folder, reads
it with pandas, writes it into a sqlite database as the table
`excel_data_<name>` (replacing any table of that name), and answers with the
header and every row as display strings. This project models the decisions
that upload passes through, all in `app.py`:

- `allowed_file` and the extension set (`text.dfy`, `filenames.dfy`): the
  name must contain a dot and the text after its last dot, lower-cased, must
  be `xlsx` or `xls`. Proved equivalent to "the lower-cased name ends in
  `.xlsx` or `.xls`".
- The table name (`filenames.dfy`): `excel_data_` followed by the sanitised
  file name cut at its last dot, or the whole name when it has none.
- `clean_value` (`cells.dfy`): empty for missing values, NaN and both
  infinities; the decimal form of an integer and `YYYY-MM-DD HH:MM:SS` for a
  date-time, each proved by a round trip through a parser that accepts only
  the form Python writes (so the round trip fixes the text: no leading zero,
  no `-0`); the string form of anything else.
- The rows as `DataFrame.iterrows` yields them (`upload.dfy`): when every
  column is numeric and one of them holds floats, the frame's values are
  `float64` and the integers are shown as floats (`1` as `1.0`), although
  the database keeps them as integers.
- `store_excel_data` (`store.dfy`, `upload.dfy`): NaN and infinities become
  NULL, and the table under the name is replaced, never merged; all other
  tables are left alone.
- `upload_file` (`upload.dfy`): a class `ExcelApp` whose two fields are the
  files in the uploads folder and the tables in the database. `UploadFile`
  states, for each exit, the response and the new state. The three request
  checks come first and touch nothing. A failed save answers 500 and removes
  nothing, so a partly written file stays. A failed read or write removes the
  temporary file and answers 500. An empty sheet answers 400 and keeps the
  temporary file. Success stores the table, removes the file and returns one
  display row per sheet row.

The outcomes of the calls into libraries are inputs of `UploadFile`: the
result of `secure_filename`, of saving the upload, of `pd.read_excel` and of
`to_sql`. Two points where the code differs from what a reader might expect
are modelled as the code has them. A sheet that cannot be read gives 500,
not 400. The temporary file is not removed on the empty-sheet exit
(app.py:104-106), though it is on every other exit after it was saved.
"Empty" is pandas' `DataFrame.empty`: no rows, or no columns.

`str.lower()` is modelled on ASCII letters only. This cannot change what
`allowed_file` decides: no character outside ASCII lower-cases to `x`, `l`
or `s`, so only ASCII names can match `xlsx` or `xls`.

## Model

| member | source | states |
|---|---|---|
| `Text.RSplitOnce` | app.py:31 | `rsplit('.', 1)`: one part, the whole string, exactly when the separator is absent; otherwise the string is the first part, the separator and the second part, and the second part has no separator (a split at the last one) |
| `Text.RSplitOnceOf` | app.py:31 | splitting `a + sep + b` with no `sep` in `b` gives exactly `[a, b]`, so the split is determined by the last separator |
| `Text.NatToDecimal` | app.py:64 | `str()` of a non-negative integer is a non-empty string of digits with no leading zero, `"0"` for zero |
| `Text.IntToDecimal` | app.py:64 | `str()` of an integer starts with a minus sign exactly when it is negative, and the digits after it are in shortest form (no leading zero, so no `-0`) |
| `Text.CanonicalDigits` | app.py:64 | digits in shortest form are exactly the `str()` of the number they denote |
| `Text.ParseIntCanonical` | app.py:64 | any text the parser reads as `n` is `str(n)`: with the round trip, the parser and `str(int)` are inverse |
| `Text.NatToDecimalRoundTrip` | app.py:64 | reading back the digits of a non-negative integer gives the integer |
| `Text.IntToDecimalRoundTrip` | app.py:64 | `str()` of any integer, sign included, parses back to the same integer |
| `Text.PaddedRoundTrip` | app.py:66 | a zero-padded field of width `w` holding `n < 10^w` reads back as `n` |
| `Text.Lower` | app.py:31 | `str.lower()` on ASCII: same length, no capital letter left, every character that is not a capital kept |
| `Text.LowerIdempotent` | app.py:31 | lower-casing twice is lower-casing once |
| `FileNames.AllowedFile` | app.py:30-31 | an accepted name has at least four characters and a dot four or five places from its end |
| `FileNames.AllowedFileIff` | app.py:30-31 | a name is accepted iff its lower-cased form ends in `.xlsx` or `.xls`, in both directions |
| `FileNames.EndsWithWhenAllowed` | app.py:30-31 | an accepted name's lower-cased form ends with a dot and the lower-cased text after the last dot |
| `FileNames.AllowedWhenEndsWith` | app.py:20 | a name whose lower-cased form ends in a dot and an allowed extension is accepted |
| `FileNames.UpperCaseExtensionAccepted` | app.py:30-31 | `A.XLSX` is accepted, since the extension is compared lower-cased |
| `FileNames.AllowedWithExtension` | app.py:30-31 | a stem, a dot and an extension without dots that lower-cases to `xlsx` or `xls` is always accepted, whatever the stem |
| `FileNames.NameWithoutDotRejected` | app.py:31 | `report`, having no dot, is rejected |
| `FileNames.LaterExtensionRejected` | app.py:31 | `report.xlsx.csv` is rejected: only the text after the last dot counts |
| `FileNames.TableName` | app.py:109 | the name starts with `excel_data_`; the rest is the sanitised name itself when it has no dot, otherwise the part of it before its last dot |
| `FileNames.TableNameStripsExtension` | app.py:109 | the table name of `stem.ext`, with no dot in `ext`, is `excel_data_stem` |
| `FileNames.SameStemSameTable` | app.py:109 | names that differ only after their last dot map to the same table |
| `FileNames.TableNameExample` | app.py:109 | `report.xlsx` is stored as `excel_data_report` |
| `Cells.FormatDate` | app.py:66 | `%Y-%m-%d` is 10 characters: the year as four zero-padded digits, a dash, the month as two, a dash, the day as two |
| `Cells.FormatTime` | app.py:66 | `%H:%M:%S` is 8 characters: hour, minute and second as two zero-padded digits each, separated by colons |
| `Cells.FormatStamp` | app.py:66 | the formatted date-time is 19 characters: the date, a space, the time |
| `Cells.FormatDateRoundTrip` | app.py:66 | parsing the formatted date gives back year, month and day |
| `Cells.FormatTimeRoundTrip` | app.py:66 | parsing the formatted time gives back hour, minute and second |
| `Cells.FormatStampRoundTrip` | app.py:66 | parsing the formatted text gives back year, month, day, hour, minute and second |
| `Cells.FormatStampExample` | app.py:66 | 5 January 2024, 10:30:00 is shown as `2024-01-05 10:30:00` |
| `Cells.CleanValue` | app.py:57-68 | total over every cell kind; empty for missing, NaN and infinite cells; integers and date-times parse back to their value through parsers that accept only Python's own form, so the text is fixed; floats and other values give their text; empty exactly in the blank cases or when that text is empty |
| `Cells.IntAsFloat` | app.py:64 | `str()` of an integer converted to a float: the integer's `str()` followed by `.0` |
| `Cells.Frame.IsEmpty` | app.py:104 | `DataFrame.empty` on a rectangular sheet holds exactly when the sheet has no cell |
| `TableStore.NullSafe` | app.py:48 | a cell becomes NULL exactly when it is missing, NaN or an infinity; otherwise the stored value is the cell itself |
| `TableStore.NullSafeAgreesWithDisplay` | app.py:48 | a cell is stored as NULL exactly when it is missing, NaN or infinite, which are the cells shown as empty; any other cell is stored unchanged |
| `TableStore.ToTable` | app.py:48-49 | the stored table keeps the header and the shape of the sheet; each stored cell is NULL exactly where the sheet cell is blank and is the sheet cell otherwise |
| `TableStore.Replace` | app.py:49 | after the write the name holds exactly the new table; every other table keeps its content and no other name appears |
| `TableStore.ReplaceLastWriteWins` | app.py:49 | writing two tables under one name leaves exactly the second |
| `TableStore.ReplaceCommutes` | app.py:49 | writes under different names do not affect each other, in either order |
| `TableStore.SetEntry` | app.py:52-54 | after a failed write only the entry under the table's name may differ; every other table is unchanged |
| `Upload.CleanRow` | app.py:116 | a cleaned row has one string per cell of the row, in order, each `clean_value` of that cell |
| `Upload.IteratedRow` | app.py:115 | row `i` as `iterrows` yields it: as wide as the header; an integer becomes a float exactly when all columns are numeric and one holds floats, every other cell is the cell read |
| `Upload.ShownAsRead` | app.py:115-116 | outside that case, and for every cell that is not an integer, the client sees `clean_value` of the cell read |
| `Upload.ShownAsFloat` | app.py:115-116 | in that case an integer is shown as its digits followed by `.0`, while the stored table keeps the integer |
| `Upload.PricesUpcast` | app.py:115 | a frame of an integer `id` column and a float `price` column has `float64` values |
| `Upload.IteratedRowExample` | app.py:115-116 | in that frame the row `(1, 2.5)` is shown as `["1.0", "2.5"]` and the database holds the integer 1 |
| `Upload.BuildRows` | app.py:113-117 | one display row per sheet row, in order; each as wide as the header; cell `j` of row `i` is `clean_value` of that cell as `iterrows` yields it |
| `Upload.ExcelApp.constructor` | app.py:22-24 | the application starts from the folder and database as they are found |
| `Upload.ExcelApp.StoreExcelData` | app.py:44-54 | on success the table is replaced by the null-safe copy of the sheet; on failure the error is returned and only that table may have changed |
| `Upload.ExcelApp.UploadFile` | app.py:77-136 | the checks in order (no file part, empty name, bad extension: 400 each, state unchanged); save failure 500 with the database unchanged and the folder unchanged except for a partly written file; read failure 500 with the temporary file removed; empty sheet 400 with the file kept and the database unchanged; write failure 500 with the file removed; success 200 with the table replaced, the file removed, the header and every row as `iterrows` yields it, cleaned |

## Left out

- Flask routing, the index page, `jsonify`, multipart parsing and the 413 and 500 error handlers (app.py:71-73, app.py:139-147): framework plumbing. The 16 MB limit is enforced by Flask, not by this code.
- `pd.read_excel` and openpyxl decoding (app.py:101): a foreign library; only its outcome, a rectangular sheet or an error message, is an input.
- The sqlite connection, `init_db` and how `to_sql` lays out columns and types (app.py:34-41, app.py:46-50): the database is modelled as a map from table names to tables.
- TableStore.Replace: the map's keys are compared case-sensitively, but sqlite compares table names without regard to ASCII case. `excel_data_Report` and `excel_data_report` are one table in sqlite, and a write under the second name either fails or replaces the first. The model keeps them as two tables, so `TableStore.ReplaceCommutes` holds in sqlite only for names that still differ after ASCII lower-casing.
- `secure_filename` (app.py:92): library code; its result is an input of `UploadFile`. The temporary path and the table name depend only on that result, so two client names it maps to the same string share both.
- Float formatting and `np.isnan`/`np.isinf` on real floats: a finite float is carried by its `str()` text, and NaN and the infinities are their own cell kinds.
- Logging, tracebacks and `app.run` (app.py:12-14, app.py:150-152): side output and server start-up.
- Header names are modelled as strings; pandas may give other types (for example integers) for a header row of numbers.
- Cells.FormatDate: always pads the year to four digits; on some platforms `strftime` writes years below 1000 unpadded. Date-times read from a spreadsheet lie after 1900.
- Sub-second parts of date-times are not modelled; `strftime` with this format drops them.
- Upload.ExcelApp.UploadFile: of the unexpected errors the outer handler catches (app.py:134-136), only a failure to save the upload is modelled. A failure of the final `os.remove` (app.py:120) is not modelled.
- Cells.IntAsFloat: writes the exact digits and `.0` for every integer. Above 2^53 in magnitude `float64` rounds the integer, and from 10^16 on Python writes floats in exponent form. Integers read from a spreadsheet are below that, since Excel keeps 15 significant digits.
- Upload.Upcast: decides the dtype of `DataFrame.values` from the cell kinds alone. Boolean columns are `Other` cells, which keep the values `object` as pandas does. A dtype forced on `read_excel` from outside the cells is not modelled.
- Concurrent requests: two uploads under one table name race, and the last write wins. The model runs one request at a time.
