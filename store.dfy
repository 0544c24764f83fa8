/**
 * What `store_excel_data` (app.py:44-54) does to the database, with sqlite
 * and `to_sql` reduced to their effect: a database is a map from table names
 * to tables, non-finite numbers become SQL NULL, and writing a table replaces
 * whatever was stored under its name.
 */
module TableStore {
  import opened Wrappers
  import opened Cells

  /** A stored value: SQL NULL or the cell as written. */
  datatype SqlValue = Null | Value(cell: Cell)

  datatype Table = Table(columns: seq<string>, rows: seq<seq<SqlValue>>)

  type Database = map<string, Table>

  /** The replacement `{nan: None, inf: None, -inf: None}` on one cell (app.py:48). */
  function NullSafe(c: Cell): (v: SqlValue)
    ensures v == Null <==> c.Missing? || c.NaN? || c.PosInf? || c.NegInf?
    ensures v != Null ==> v.cell == c
  {
    if IsBlank(c) then Null else Value(c)
  }

  /**
   * A stored value is NULL exactly where the client is shown an empty cell
   * for lack of a value, and otherwise keeps the cell unchanged; so no NaN or
   * infinity ever reaches the database.
   */
  lemma NullSafeAgreesWithDisplay(c: Cell)
    ensures NullSafe(c) == Null <==> IsBlank(c)
    ensures NullSafe(c) == Null ==> CleanValue(c) == ""
    ensures NullSafe(c) != Null ==> NullSafe(c) == Value(c) && !NullSafe(c).cell.NaN?
    ensures NullSafe(c) != Null ==> !NullSafe(c).cell.PosInf? && !NullSafe(c).cell.NegInf?
  {
  }

  /** The table `to_sql(..., index=False)` writes for a sheet. */
  function ToTable(sheet: Sheet): (t: Table)
    ensures t.columns == sheet.columns && |t.rows| == |sheet.rows|
    ensures forall i :: 0 <= i < |t.rows| ==> |t.rows[i]| == |sheet.columns|
    ensures forall i, j :: 0 <= i < |t.rows| && 0 <= j < |t.rows[i]| ==>
              t.rows[i][j] == Null || t.rows[i][j] == Value(sheet.rows[i][j])
    ensures forall i, j :: 0 <= i < |t.rows| && 0 <= j < |t.rows[i]| ==>
              (t.rows[i][j] == Null <==> IsBlank(sheet.rows[i][j]))
  {
    Table(sheet.columns,
          seq(|sheet.rows|, i requires 0 <= i < |sheet.rows| =>
            seq(|sheet.rows[i]|, j requires 0 <= j < |sheet.rows[i]| => NullSafe(sheet.rows[i][j]))))
  }

  /** `if_exists='replace'`: the named table becomes exactly `t`; every other table is untouched. */
  function Replace(db: Database, name: string, t: Table): (db': Database)
    ensures db'.Keys == db.Keys + {name}
    ensures name in db' && db'[name] == t
    ensures forall k :: k in db && k != name ==> db'[k] == db[k]
  {
    db[name := t]
  }

  /** Writing the same name twice keeps only the second table: replace, not merge. */
  lemma ReplaceLastWriteWins(db: Database, name: string, first: Table, second: Table)
    ensures Replace(Replace(db, name, first), name, second) == Replace(db, name, second)
  {
  }

  /** Writes to two different names do not interfere, whatever their order. */
  lemma ReplaceCommutes(db: Database, a: string, ta: Table, b: string, tb: Table)
    requires a != b
    ensures Replace(Replace(db, a, ta), b, tb) == Replace(Replace(db, b, tb), a, ta)
  {
  }

  /**
   * What a failed write leaves under the name: `to_sql` gives no guarantee,
   * so the remainder (nothing, the old table, or a partial one) is supplied
   * from outside. Every other table is untouched.
   */
  function SetEntry(db: Database, name: string, residue: Option<Table>): (db': Database)
    ensures residue.None? ==> name !in db'
    ensures residue.Some? ==> name in db' && db'[name] == residue.value
    ensures forall k :: k != name ==> (k in db' <==> k in db)
    ensures forall k :: k in db && k != name ==> db'[k] == db[k]
  {
    if residue.None? then db - {name} else db[name := residue.value]
  }
}
