/**
 * Spreadsheet cells as the parser hands them to the upload handler, the
 * sheet that holds them, and `clean_value` (app.py:57-68), which turns one
 * cell into the string shown to the client.
 */
module Cells {
  import opened Wrappers
  import opened Text

  // ---------------------------------------------------------------------------
  // Date-times

  // The ranges Python's `datetime` enforces on its fields.
  type Year = y: int | 1 <= y <= 9999 witness 1
  type Month = m: int | 1 <= m <= 12 witness 1
  type Day = d: int | 1 <= d <= 31 witness 1
  type Hour = h: int | 0 <= h <= 23
  type Minute = m: int | 0 <= m <= 59
  type Second = s: int | 0 <= s <= 59

  /** A `datetime` down to the second; the sub-second part is not modelled. */
  datatype Stamp = Stamp(year: Year, month: Month, day: Day, hour: Hour, minute: Minute, second: Second)

  /** `%Y-%m-%d`. */
  function FormatDate(t: Stamp): (s: string)
    ensures |s| == 10 && s[4] == '-' && s[7] == '-'
    ensures s[0..4] == Padded(t.year, 4) && s[5..7] == Padded(t.month, 2) && s[8..10] == Padded(t.day, 2)
  {
    Padded(t.year, 4) + "-" + Padded(t.month, 2) + "-" + Padded(t.day, 2)
  }

  /** `%H:%M:%S`. */
  function FormatTime(t: Stamp): (s: string)
    ensures |s| == 8 && s[2] == ':' && s[5] == ':'
    ensures s[0..2] == Padded(t.hour, 2) && s[3..5] == Padded(t.minute, 2) && s[6..8] == Padded(t.second, 2)
  {
    Padded(t.hour, 2) + ":" + Padded(t.minute, 2) + ":" + Padded(t.second, 2)
  }

  /** `strftime('%Y-%m-%d %H:%M:%S')`. */
  function FormatStamp(t: Stamp): (s: string)
    ensures |s| == 19 && s[10] == ' '
    ensures s[0..10] == FormatDate(t) && s[11..19] == FormatTime(t)
  {
    var s := FormatDate(t) + " " + FormatTime(t);
    assert s[0..10] == FormatDate(t) && s[11..19] == FormatTime(t);
    s
  }

  /** Reads `YYYY-MM-DD` back into a year, month and day. */
  function ParseDate(s: string): Option<(Year, Month, Day)>
  {
    if |s| == 10 && s[4] == '-' && s[7] == '-' &&
       AllDigits(s[0..4]) && AllDigits(s[5..7]) && AllDigits(s[8..10])
    then
      var y, mo, d := DecimalValue(s[0..4]), DecimalValue(s[5..7]), DecimalValue(s[8..10]);
      if 1 <= y <= 9999 && 1 <= mo <= 12 && 1 <= d <= 31 then Some((y, mo, d)) else None
    else None
  }

  /** Reads `HH:MM:SS` back into an hour, minute and second. */
  function ParseTime(s: string): Option<(Hour, Minute, Second)>
  {
    if |s| == 8 && s[2] == ':' && s[5] == ':' &&
       AllDigits(s[0..2]) && AllDigits(s[3..5]) && AllDigits(s[6..8])
    then
      var h, mi, se := DecimalValue(s[0..2]), DecimalValue(s[3..5]), DecimalValue(s[6..8]);
      if h <= 23 && mi <= 59 && se <= 59 then Some((h, mi, se)) else None
    else None
  }

  /** Reads `YYYY-MM-DD HH:MM:SS` back into a stamp; `None` when the text is not one. */
  function ParseStamp(s: string): Option<Stamp>
  {
    if |s| == 19 && s[10] == ' ' then
      match (ParseDate(s[0..10]), ParseTime(s[11..19]))
      case (Some((y, mo, d)), Some((h, mi, se))) => Some(Stamp(y, mo, d, h, mi, se))
      case _ => None
    else None
  }

  lemma FormatDateRoundTrip(t: Stamp)
    ensures ParseDate(FormatDate(t)) == Some((t.year, t.month, t.day))
  {
    assert Pow10(2) == 100 && Pow10(4) == 10000;
    PaddedRoundTrip(t.year, 4);
    PaddedRoundTrip(t.month, 2);
    PaddedRoundTrip(t.day, 2);
  }

  lemma FormatTimeRoundTrip(t: Stamp)
    ensures ParseTime(FormatTime(t)) == Some((t.hour, t.minute, t.second))
  {
    assert Pow10(2) == 100;
    PaddedRoundTrip(t.hour, 2);
    PaddedRoundTrip(t.minute, 2);
    PaddedRoundTrip(t.second, 2);
  }

  /** Formatting loses nothing a stamp holds: every field is written in full, zero-padded. */
  lemma FormatStampRoundTrip(t: Stamp)
    ensures ParseStamp(FormatStamp(t)) == Some(t)
  {
    FormatDateRoundTrip(t);
    FormatTimeRoundTrip(t);
  }

  /** The last two digits of a number, as the two-digit fields write them. */
  lemma PaddedTwo(n: nat)
    ensures Padded(n, 2) == [DigitChar(n / 10 % 10), DigitChar(n % 10)]
  {
    assert Padded(n, 2) == Padded(n / 10, 1) + [DigitChar(n % 10)];
    assert Padded(n / 10, 1) == Padded(n / 10 / 10, 0) + [DigitChar(n / 10 % 10)];
  }

  lemma FormatDateExample()
    ensures FormatDate(Stamp(2024, 1, 5, 10, 30, 0)) == "2024-01-05"
  {
    PaddedTwo(2024);
    PaddedTwo(20);
    assert Padded(2024, 4) == Padded(20, 2) + Padded(2024, 2);
    PaddedTwo(1);
    PaddedTwo(5);
  }

  lemma FormatTimeExample()
    ensures FormatTime(Stamp(2024, 1, 5, 10, 30, 0)) == "10:30:00"
  {
    PaddedTwo(10);
    PaddedTwo(30);
    PaddedTwo(0);
  }

  lemma FormatStampExample()
    ensures FormatStamp(Stamp(2024, 1, 5, 10, 30, 0)) == "2024-01-05 10:30:00"
  {
    FormatDateExample();
    FormatTimeExample();
  }

  // ---------------------------------------------------------------------------
  // Cells

  /**
   * One value of a parsed sheet. `Missing` is `None`, `NaT` and every other
   * value pandas reports as missing; `NaN`, `PosInf` and `NegInf` are the
   * non-finite floats; `Float` is any other float, carried by its Python
   * `str()` text because float formatting is not modelled; `Other` is any
   * remaining value, carried by its `str()` text.
   */
  datatype Cell =
    | Missing
    | NaN
    | PosInf
    | NegInf
    | Int(n: int)
    | Float(text: string)
    | DateTime(at: Stamp)
    | Other(text: string)

  /** The cells a pandas numeric (`int64` or `float64`) column holds. */
  predicate IsNumeric(c: Cell)
  {
    c.Int? || c.Float? || c.NaN? || c.PosInf? || c.NegInf?
  }

  /**
   * An integer converted to a float, as `str()` then writes it: the digits of
   * the integer followed by `.0` (`str(1.0) == "1.0"`).
   */
  function IntAsFloat(n: int): (c: Cell)
    ensures c.Float? && |c.text| >= 3 && c.text[|c.text| - 2..] == ".0"
    ensures ParseInt(c.text[..|c.text| - 2]) == Some(n)
  {
    var digits := IntToDecimal(n);
    IntToDecimalRoundTrip(n);
    assert (digits + ".0")[..|digits|] == digits;
    Float(digits + ".0")
  }

  /** The cells that have no finite value to show. */
  predicate IsBlank(c: Cell)
  {
    c.Missing? || c.NaN? || c.PosInf? || c.NegInf?
  }

  /** `clean_value`: a display string for every cell; total, so it never raises. */
  function CleanValue(c: Cell): (r: string)
    ensures IsBlank(c) ==> r == ""
    ensures c.Int? ==> ParseInt(r) == Some(c.n)
    ensures c.DateTime? ==> ParseStamp(r) == Some(c.at)
    ensures (c.Float? || c.Other?) ==> r == c.text
    ensures r == "" <==> IsBlank(c) || ((c.Float? || c.Other?) && c.text == "")
  {
    match c
    case Missing => ""
    case NaN => ""
    case PosInf => ""
    case NegInf => ""
    case Int(n) => IntToDecimalRoundTrip(n); IntToDecimal(n)
    case Float(text) => text
    case DateTime(at) => FormatStampRoundTrip(at); FormatStamp(at)
    case Other(text) => text
  }

  // ---------------------------------------------------------------------------
  // Sheets

  /**
   * A parsed sheet: header names and rows of cells, as `pd.read_excel`
   * returns it. The rows as the handler iterates over them can differ in
   * their integers; see `IteratedRow` in the upload module.
   */
  datatype Frame = Frame(columns: seq<string>, rows: seq<seq<Cell>>)
  {
    /** Every row is as wide as the header. */
    predicate Rectangular()
    {
      forall i :: 0 <= i < |rows| ==> |rows[i]| == |columns|
    }

    /** pandas' `DataFrame.empty`: no rows or no columns. */
    predicate IsEmpty()
      // For a rectangular frame: empty exactly when it holds no cell at all.
      ensures Rectangular() ==> (IsEmpty() <==> forall i :: 0 <= i < |rows| ==> rows[i] == [])
    {
      assert Rectangular() && |rows| > 0 ==> |rows[0]| == |columns|;
      |rows| == 0 || |columns| == 0
    }
  }

  /** A data frame is always rectangular. */
  type Sheet = f: Frame | f.Rectangular() witness Frame([], [])
}
