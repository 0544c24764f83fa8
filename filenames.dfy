/**
 * The two decisions the upload handler takes from a file name alone
 * (app.py:20, app.py:30-31, app.py:109): whether the client's name carries
 * an accepted spreadsheet extension, and which database table a sanitised
 * name is stored under.
 */
module FileNames {
  import opened Text

  /** The accepted extensions, lower case and without the dot. */
  const ALLOWED_EXTENSIONS: set<string> := {"xlsx", "xls"}

  /** Every table the handler writes is named with this prefix. */
  const TABLE_PREFIX: string := "excel_data_"

  /**
   * `allowed_file`: the name contains a dot and the text after the last dot,
   * lower-cased, is an accepted extension.
   */
  predicate AllowedFile(filename: string)
    // An accepted name ends in a dot and three or four more characters.
    ensures AllowedFile(filename) ==>
              |filename| >= 4 &&
              (filename[|filename| - 4] == '.' || (|filename| >= 5 && filename[|filename| - 5] == '.'))
  {
    '.' in filename && Lower(RSplitOnce(filename, '.')[1]) in ALLOWED_EXTENSIONS
  }

  /**
   * The check is the same as "the lower-cased name ends in `.xlsx` or `.xls`":
   * a reading of `allowed_file` that does not mention splitting at all.
   */
  lemma AllowedFileIff(filename: string)
    ensures AllowedFile(filename) <==>
            EndsWith(Lower(filename), ".xlsx") || EndsWith(Lower(filename), ".xls")
  {
    AllowedWhenEndsWith(filename, "xlsx");
    AllowedWhenEndsWith(filename, "xls");
    assert "." + "xlsx" == ".xlsx" && "." + "xls" == ".xls";
    if AllowedFile(filename) {
      EndsWithWhenAllowed(filename);
    }
  }

  lemma EndsWithWhenAllowed(filename: string)
    requires AllowedFile(filename)
    ensures EndsWith(Lower(filename), ".xlsx") || EndsWith(Lower(filename), ".xls")
  {
    var parts := RSplitOnce(filename, '.');
    var ext := Lower(parts[1]);
    LoweredEndsAfterDot(parts[0], parts[1]);
    if ext == "xlsx" {
      assert "." + ext == ".xlsx";
    } else {
      assert "." + ext == ".xls";
    }
  }

  /** Lower-casing keeps the dot and the lower-cased text after it at the end. */
  lemma LoweredEndsAfterDot(stem: string, after: string)
    ensures EndsWith(Lower(stem + ['.'] + after), "." + Lower(after))
  {
    LowerAppend(stem + ['.'], after);
    LowerAppend(stem, ['.']);
    var lowered := Lower(stem + ['.'] + after);
    assert lowered == Lower(stem) + ['.'] + Lower(after);
    assert lowered[|lowered| - |Lower(after)| - 1..] == "." + Lower(after);
  }

  lemma AllowedWhenEndsWith(filename: string, ext: string)
    requires ext in ALLOWED_EXTENSIONS
    ensures EndsWith(Lower(filename), "." + ext) ==> AllowedFile(filename)
  {
    if EndsWith(Lower(filename), "." + ext) {
      var k := |filename| - |ext| - 1;
      var stem, after := filename[..k], filename[k + 1..];
      assert Lower(filename)[k] == '.';
      assert filename[k] == '.';
      assert filename == stem + ['.'] + after;
      assert Lower(after) == Lower(filename)[k + 1..];
      assert Lower(after) == ext;
      assert '.' !in after by {
        forall i | 0 <= i < |after| ensures after[i] != '.' {
          assert Lower(after)[i] == ext[i];
        }
      }
      RSplitOnceOf(stem, after, '.');
    }
  }

  /** Names the handler accepts and rejects, as its documentation gives them. */
  lemma UpperCaseExtensionAccepted()
    ensures AllowedFile("A.XLSX")
  {
    var name := "A.XLSX";
    assert name == "A" + ['.'] + "XLSX";
    RSplitOnceOf("A", "XLSX", '.');
    assert Lower("XLSX") == "xlsx";
  }

  /** Any name made of a stem, a dot and an accepted extension in any letter case is accepted. */
  lemma AllowedWithExtension(stem: string, ext: string)
    requires '.' !in ext && Lower(ext) in ALLOWED_EXTENSIONS
    ensures AllowedFile(stem + "." + ext)
  {
    RSplitOnceOf(stem, ext, '.');
  }

  lemma NameWithoutDotRejected()
    ensures !AllowedFile("report")
  {
  }

  lemma LaterExtensionRejected()
    ensures !AllowedFile("report.xlsx.csv")
  {
    var name := "report.xlsx.csv";
    assert name == "report.xlsx" + ['.'] + "csv";
    RSplitOnceOf("report.xlsx", "csv", '.');
    assert Lower("csv") == "csv";
  }

  /**
   * The table name for a sanitised file name: the prefix, then the name with
   * everything from its last dot removed (the whole name when it has no dot).
   */
  function TableName(sanitized: string): (name: string)
    ensures |TABLE_PREFIX| <= |name| && name[..|TABLE_PREFIX|] == TABLE_PREFIX
    ensures var stem := name[|TABLE_PREFIX|..];
            ('.' !in sanitized && stem == sanitized) ||
            ('.' in sanitized && |stem| < |sanitized| && sanitized[..|stem|] == stem &&
             sanitized[|stem|] == '.' && '.' !in sanitized[|stem| + 1..])
  {
    var parts := RSplitOnce(sanitized, '.');
    var name := TABLE_PREFIX + parts[0];
    assert name[|TABLE_PREFIX|..] == parts[0];
    assert |parts| == 2 ==>
      sanitized[..|parts[0]|] == parts[0] && sanitized[|parts[0]| + 1..] == parts[1];
    name
  }

  lemma TableNameStripsExtension(stem: string, ext: string)
    requires '.' !in ext
    ensures TableName(stem + "." + ext) == TABLE_PREFIX + stem
  {
    RSplitOnceOf(stem, ext, '.');
  }

  /**
   * Two sanitised names that differ only after their last dot share one table:
   * `report.xlsx` and `report.xls` overwrite each other.
   */
  lemma SameStemSameTable(stem: string, ext1: string, ext2: string)
    requires '.' !in ext1 && '.' !in ext2
    ensures TableName(stem + "." + ext1) == TableName(stem + "." + ext2)
  {
    TableNameStripsExtension(stem, ext1);
    TableNameStripsExtension(stem, ext2);
  }

  lemma TableNameExample()
    ensures TableName("report.xlsx") == "excel_data_report"
  {
    var name := "report.xlsx";
    assert name == "report" + "." + "xlsx";
    TableNameStripsExtension("report", "xlsx");
  }
}
