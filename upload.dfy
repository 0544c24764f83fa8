/**
 * The `/upload` handler (app.py:77-136) and the database write it calls
 * (app.py:44-54), as a class over the two pieces of state they change: the
 * names of the files in the uploads folder and the tables in the database.
 *
 * The outcomes of the library calls the handler makes (saving the upload,
 * `pd.read_excel`, `to_sql`) and the result of `secure_filename` are inputs.
 */
module Upload {
  import opened Wrappers
  import opened Text
  import opened FileNames
  import opened Cells
  import opened TableStore

  // ---------------------------------------------------------------------------
  // Requests, library outcomes and responses

  /** The multipart `file` field; its bytes matter only through the parse outcome. */
  datatype FilePart = FilePart(filename: string)

  /** `request.files`, reduced to whether it has a `file` entry. */
  datatype Request = Request(file: Option<FilePart>)

  /**
   * `file.save(filepath)`. A save that fails after opening the path leaves a
   * partial file behind (`leftBehind`); one that fails before does not.
   */
  datatype SaveOutcome = Saved | SaveFailed(message: string, leftBehind: bool)

  /** `pd.read_excel(filepath, engine='openpyxl')`. */
  datatype ParseOutcome = Parsed(sheet: Sheet) | ParseFailed(message: string)

  /** `to_sql`; on failure, `residue` is what is left under the table name. */
  datatype StoreOutcome = Stored | StoreFailed(message: string, residue: Option<Table>)

  datatype Body = ErrorBody(error: string) | TableBody(columns: seq<string>, data: seq<seq<string>>)

  datatype Response = Response(status: int, body: Body)

  const NO_FILE_PART: string := "No file part"
  const NO_SELECTED_FILE: string := "No selected file"
  const INVALID_TYPE: string := "Invalid file type. Please upload .xlsx or .xls file"
  const EMPTY_FILE: string := "The uploaded Excel file is empty"
  const PROCESSING_ERROR: string := "Error processing file: "
  const SERVER_ERROR: string := "Server error: "

  /** The request passes the three checks made before anything is written. */
  predicate Accepted(req: Request)
  {
    req.file.Some? && req.file.value.filename != "" && AllowedFile(req.file.value.filename)
  }

  // ---------------------------------------------------------------------------
  // Response rows (app.py:113-117)

  /**
   * `DataFrame.values` is `float64`: every column is numeric and at least one
   * holds a float (or NaN, or an infinity). `iterrows` then yields each row
   * as `float64` values, so the integers of the `int64` columns arrive as
   * floats. In any other frame the values are `object` and arrive unchanged.
   */
  predicate Upcast(sheet: Sheet)
  {
    && (forall i, j :: 0 <= i < |sheet.rows| && 0 <= j < |sheet.rows[i]| ==> IsNumeric(sheet.rows[i][j]))
    && (exists i, j :: 0 <= i < |sheet.rows| && 0 <= j < |sheet.rows[i]| && !sheet.rows[i][j].Int?)
  }

  /** One cell as `iterrows` yields it, given whether the frame's values are `float64`. */
  function AsIterated(c: Cell, float64: bool): Cell
  {
    if float64 && c.Int? then IntAsFloat(c.n) else c
  }

  /** Row `i` as `iterrows` yields it. */
  function IteratedRow(sheet: Sheet, i: nat): (row: seq<Cell>)
    requires i < |sheet.rows|
    ensures |row| == |sheet.columns|
    ensures forall j :: 0 <= j < |row| ==> row[j] == AsIterated(sheet.rows[i][j], Upcast(sheet))
  {
    var float64 := Upcast(sheet);
    seq(|sheet.rows[i]|, j requires 0 <= j < |sheet.rows[i]| => AsIterated(sheet.rows[i][j], float64))
  }

  /** The string the client is shown for cell `j` of row `i`. */
  function Shown(sheet: Sheet, i: nat, j: nat): string
    requires i < |sheet.rows| && j < |sheet.columns|
  {
    CleanValue(AsIterated(sheet.rows[i][j], Upcast(sheet)))
  }

  /** Outside an all-numeric frame with a float column, every cell is shown as `clean_value` of the cell read. */
  lemma ShownAsRead(sheet: Sheet, i: nat, j: nat)
    requires i < |sheet.rows| && j < |sheet.columns|
    requires !Upcast(sheet) || !sheet.rows[i][j].Int?
    ensures Shown(sheet, i, j) == CleanValue(sheet.rows[i][j])
  {
  }

  /**
   * In an all-numeric frame with a float column, an integer is shown as a
   * float: its digits followed by `.0`, while the database keeps the integer.
   */
  lemma ShownAsFloat(sheet: Sheet, i: nat, j: nat)
    requires i < |sheet.rows| && j < |sheet.columns|
    requires Upcast(sheet) && sheet.rows[i][j].Int?
    ensures var r := Shown(sheet, i, j);
            |r| >= 3 && r[|r| - 2..] == ".0" && r[..|r| - 2] == IntToDecimal(sheet.rows[i][j].n)
    ensures ToTable(sheet).rows[i][j] == Value(sheet.rows[i][j])
  {
    var c := IntAsFloat(sheet.rows[i][j].n);
    ParseIntCanonical(c.text[..|c.text| - 2], sheet.rows[i][j].n);
  }

  /** An `id` column of integers beside a `price` column of floats. */
  const PRICES: Sheet := Frame(["id", "price"], [[Int(1), Float("2.5")], [Int(2), Float("3.5")]])

  lemma PricesUpcast()
    ensures Upcast(PRICES)
  {
    assert !PRICES.rows[0][1].Int?;
  }

  /** The first id is shown as `1.0`, while the database keeps the integer 1. */
  lemma IteratedRowExample()
    ensures CleanRow(IteratedRow(PRICES, 0)) == ["1.0", "2.5"]
    ensures ToTable(PRICES).rows[0][0] == Value(Int(1))
  {
    PricesUpcast();
    assert IntToDecimal(1) == "1";
    var row := IteratedRow(PRICES, 0);
    assert row[0] == IntAsFloat(1) == Float("1.0");
    assert row == [Float("1.0"), Float("2.5")];
  }

  /** `[clean_value(value) for value in row]`. */
  function CleanRow(row: seq<Cell>): (cleaned: seq<string>)
    ensures |cleaned| == |row|
    ensures forall j :: 0 <= j < |row| ==> cleaned[j] == CleanValue(row[j])
  {
    seq(|row|, j requires 0 <= j < |row| => CleanValue(row[j]))
  }

  /** One list of display strings per sheet row, in order, each as wide as the header. */
  method BuildRows(sheet: Sheet) returns (data: seq<seq<string>>)
    ensures |data| == |sheet.rows|
    ensures forall i :: 0 <= i < |data| ==> |data[i]| == |sheet.columns|
    ensures forall i, j :: 0 <= i < |data| && 0 <= j < |data[i]| ==> data[i][j] == Shown(sheet, i, j)
  {
    data := [];
    for i := 0 to |sheet.rows|
      invariant |data| == i
      invariant forall k :: 0 <= k < i ==> data[k] == CleanRow(IteratedRow(sheet, k))
    {
      data := data + [CleanRow(IteratedRow(sheet, i))];
    }
  }

  // ---------------------------------------------------------------------------
  // The application's state

  class ExcelApp {
    /** Names of the files present in the uploads folder. */
    var uploads: set<string>
    /** The tables of the database file. */
    var db: Database

    /** The folder and database as found at process start. */
    constructor (folder: set<string>, database: Database)
      ensures uploads == folder && db == database
    {
      uploads := folder;
      db := database;
    }

    /** `store_excel_data`: replaces the named table, or reports the library's error. */
    method StoreExcelData(sheet: Sheet, tableName: string, outcome: StoreOutcome)
      returns (error: Option<string>)
      modifies this`db
      ensures outcome.Stored? ==> error == None && db == Replace(old(db), tableName, ToTable(sheet))
      ensures outcome.StoreFailed? ==>
                error == Some(outcome.message) &&
                db == SetEntry(old(db), tableName, outcome.residue)
    {
      match outcome {
        case Stored =>
          db := Replace(db, tableName, ToTable(sheet));
          error := None;
        case StoreFailed(message, residue) =>
          db := SetEntry(db, tableName, residue);
          error := Some(message);
      }
    }

    /**
     * `upload_file`. `sanitized` is what `secure_filename` makes of the
     * client's name; it is used only once the three checks have passed.
     */
    method UploadFile(req: Request, sanitized: string, save: SaveOutcome,
                      parse: ParseOutcome, store: StoreOutcome)
      returns (resp: Response)
      modifies this
      // The three checks, in order; none of them touches the folder or the database.
      ensures req.file.None? ==>
                resp == Response(400, ErrorBody(NO_FILE_PART)) &&
                uploads == old(uploads) && db == old(db)
      ensures req.file.Some? && req.file.value.filename == "" ==>
                resp == Response(400, ErrorBody(NO_SELECTED_FILE)) &&
                uploads == old(uploads) && db == old(db)
      ensures req.file.Some? && req.file.value.filename != "" && !AllowedFile(req.file.value.filename) ==>
                resp == Response(400, ErrorBody(INVALID_TYPE)) &&
                uploads == old(uploads) && db == old(db)
      // Saving the temporary file fails: the outer handler answers 500 and removes nothing.
      ensures Accepted(req) && save.SaveFailed? ==>
                resp == Response(500, ErrorBody(SERVER_ERROR + save.message)) &&
                uploads == old(uploads) + (if save.leftBehind then {sanitized} else {}) && db == old(db)
      // The sheet cannot be read: the temporary file is removed, 500.
      ensures Accepted(req) && save.Saved? && parse.ParseFailed? ==>
                resp == Response(500, ErrorBody(PROCESSING_ERROR + parse.message)) &&
                uploads == old(uploads) - {sanitized} && db == old(db)
      // The sheet is empty: 400, nothing stored, and the temporary file stays.
      ensures Accepted(req) && save.Saved? && parse.Parsed? && parse.sheet.IsEmpty() ==>
                resp == Response(400, ErrorBody(EMPTY_FILE)) &&
                uploads == old(uploads) + {sanitized} && db == old(db)
      // The write fails: the temporary file is removed, 500, and only that table may have changed.
      ensures Accepted(req) && save.Saved? && parse.Parsed? && !parse.sheet.IsEmpty() && store.StoreFailed? ==>
                resp == Response(500, ErrorBody(PROCESSING_ERROR + store.message)) &&
                uploads == old(uploads) - {sanitized} &&
                db == SetEntry(old(db), TableName(sanitized), store.residue)
      // Success: the table is replaced, the temporary file removed, and every row shown.
      ensures Accepted(req) && save.Saved? && parse.Parsed? && !parse.sheet.IsEmpty() && store.Stored? ==>
                && resp.status == 200
                && resp.body.TableBody?
                && resp.body.columns == parse.sheet.columns
                && |resp.body.data| == |parse.sheet.rows|
                && (forall i :: 0 <= i < |resp.body.data| ==> |resp.body.data[i]| == |parse.sheet.columns|)
                && (forall i, j :: 0 <= i < |resp.body.data| && 0 <= j < |resp.body.data[i]| ==>
                      resp.body.data[i][j] == Shown(parse.sheet, i, j))
                && uploads == old(uploads) - {sanitized}
                && db == Replace(old(db), TableName(sanitized), ToTable(parse.sheet))
    {
      if req.file.None? {
        return Response(400, ErrorBody(NO_FILE_PART));
      }
      var file := req.file.value;
      if file.filename == "" {
        return Response(400, ErrorBody(NO_SELECTED_FILE));
      }
      if !AllowedFile(file.filename) {
        return Response(400, ErrorBody(INVALID_TYPE));
      }

      var filename := sanitized;
      if save.SaveFailed? {
        if save.leftBehind {
          uploads := uploads + {filename};
        }
        return Response(500, ErrorBody(SERVER_ERROR + save.message));
      }
      uploads := uploads + {filename};

      // From here on, any exception removes the temporary file and answers 500.
      var failure: Option<string> := None;
      var sheet: Sheet := Frame([], []);
      match parse {
        case ParseFailed(message) =>
          failure := Some(message);
        case Parsed(parsed) =>
          sheet := parsed;
      }
      if failure.None? {
        if sheet.IsEmpty() {
          return Response(400, ErrorBody(EMPTY_FILE));
        }
        var tableName := TableName(filename);
        failure := StoreExcelData(sheet, tableName, store);
      }
      if failure.Some? {
        if filename in uploads {
          uploads := uploads - {filename};
        }
        return Response(500, ErrorBody(PROCESSING_ERROR + failure.value));
      }

      var columns := sheet.columns;
      var data := BuildRows(sheet);
      uploads := uploads - {filename};
      resp := Response(200, TableBody(columns, data));
    }
  }

  /** A client of the specification above: a rejected name leaves no file and no table behind. */
  method RejectedUploadScenario(sheet: Sheet)
  {
    var app := new ExcelApp({}, map[]);
    var name := "report.xlsx.csv";
    LaterExtensionRejected();
    var resp := app.UploadFile(Request(Some(FilePart(name))), name, Saved, Parsed(sheet), Stored);
    assert resp == Response(400, ErrorBody(INVALID_TYPE));
    assert app.uploads == {} && app.db == map[];
  }

  /** A client of the specification above: a second upload under the same name replaces the first table. */
  method ReplaceUploadScenario(first: Sheet, second: Sheet)
    requires !first.IsEmpty() && !second.IsEmpty()
  {
    var app := new ExcelApp({}, map[]);
    var name := "report.xlsx";
    assert name == "report" + "." + "xlsx";
    assert Lower("xlsx") == "xlsx";
    AllowedWithExtension("report", "xlsx");
    TableNameExample();
    var table := TableName(name);

    var resp := app.UploadFile(Request(Some(FilePart(name))), name, Saved, Parsed(first), Stored);
    assert resp.status == 200 && app.uploads == {};
    assert app.db == Replace(map[], table, ToTable(first));

    resp := app.UploadFile(Request(Some(FilePart(name))), name, Saved, Parsed(second), Stored);
    assert resp.status == 200 && app.uploads == {};
    ReplaceLastWriteWins(map[], table, ToTable(first), ToTable(second));
    assert app.db == Replace(map[], table, ToTable(second));
    assert table == "excel_data_report" && |app.db[table].rows| == |second.rows|;
  }
}
