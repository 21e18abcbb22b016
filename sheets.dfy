/** The rows the converters read from a worksheet, with the spreadsheet
    reading itself left out: a sheet is its (already mapped) name, its header
    and its rows in order. */
module Sheets {
  import opened PyValues
  import opened Tree
  import opened Coerce

  /** The two ways the scripts read a workbook. openpyxl (main7.py, main8.py,
      main11.py) hands an empty cell over as `None`; pandas (main4.py, 6.py,
      5.py, 2.py, main.py) hands it over as the float NaN. */
  datatype Reader = Openpyxl | Pandas

  /** The cells of one row the converters look at: `resource-name` (or
      `resource`), `arguments`, `value` and the generate flag. */
  datatype Row = Row(resource: Cell, arguments: Cell, value: Cell, flag: Cell)

  datatype Sheet = Sheet(name: string, columns: seq<string>, rows: seq<Row>)

  const NaN: Value := F(Float("nan"))

  /** The Python object a reader hands over for a cell. */
  function CellNode(c: Cell, rd: Reader): (n: Node)
    ensures c.Full? ==> n == Scalar(c.v)
    ensures c.Blank? ==> n == if rd == Openpyxl then Null else Scalar(NaN)
  {
    match c
    case Full(v) => Scalar(v)
    case Blank => if rd == Openpyxl then Null else Scalar(NaN)
  }

  /** `str(row.get(column))`. */
  function CellStr(c: Cell, rd: Reader): (s: string)
    ensures c.Full? ==> s == ValueText(c.v)
    ensures c.Blank? ==> s == if rd == Openpyxl then "None" else "nan"
  {
    match c
    case Full(v) => ValueText(v)
    case Blank => if rd == Openpyxl then "None" else "nan"
  }

  /** `.strip().lower() == "true"`: the text test of a generate flag. */
  predicate IsTrueText(s: string) {
    Lower(Strip(s)) == "true"
  }

  /** `str(row.get("gen-tfvars-flag", "")).strip().lower() == "true"`
      (main4.py:163, main7.py:204, main8.py:172, main11.py:186). On a sheet
      without the column `row.get` gives the default `""`, which never passes. */
  predicate Flagged(cols: seq<string>, r: Row, rd: Reader)
    ensures Flagged(cols, r, rd) ==> "gen-tfvars-flag" in cols && r.flag.Full?
  {
    NoTrueText("None");
    NoTrueText("nan");
    IsTrueText(if "gen-tfvars-flag" in cols then CellStr(r.flag, rd) else "")
  }

  /** `str(row.get("arguments")).strip()`: `None` when the sheet has no
      `arguments` column. (main8.py and main11.py pass the default `""`, but
      they only get here once `group["arguments"]` has found the column.) */
  function ArgumentText(cols: seq<string>, r: Row, rd: Reader): string {
    Strip(if "arguments" in cols then CellStr(r.arguments, rd) else "None")
  }

  /** `row.get("value")`: the cell's object, or `None` when the sheet has no
      `value` column. */
  function ValueNode(cols: seq<string>, r: Row, rd: Reader): Node {
    if "value" in cols then CellNode(r.value, rd) else Null
  }

  /** `str(row.get("resource-name")).strip()` of main4.py: `None` when the
      sheet has no `resource-name` column. */
  function RowResourceName(cols: seq<string>, r: Row, rd: Reader): string {
    Strip(if "resource-name" in cols then CellStr(r.resource, rd) else "None")
  }

  /** `str(resource).strip()`: the name a resource cell is filed under. */
  function ResourceName(c: Cell, rd: Reader): string {
    Strip(CellStr(c, rd))
  }

  /** `df["resource-name"].dropna().unique()`: the non-empty resource cells,
      each once, in the order they first appear. */
  function ResourceCells(rows: seq<Row>): (cs: seq<Cell>)
    ensures forall i :: 0 <= i < |cs| ==> cs[i].Full? && exists r :: r in rows && r.resource == cs[i]
    ensures forall r :: r in rows && r.resource.Full? ==> r.resource in cs
    decreases |rows|
  {
    if rows == [] then []
    else
      var last := rows[|rows| - 1];
      var before := ResourceCells(rows[..|rows| - 1]);
      assert forall r :: r in rows[..|rows| - 1] ==> r in rows;
      assert forall r :: r in rows ==> r in rows[..|rows| - 1] || r == last;
      if last.resource.Blank? || last.resource in before then before else before + [last.resource]
  }

  /** `unique()`: no resource cell comes twice. */
  lemma {:induction false} ResourceCellsUnique(rows: seq<Row>)
    ensures forall i, j :: 0 <= i < j < |ResourceCells(rows)| ==> ResourceCells(rows)[i] != ResourceCells(rows)[j]
    decreases |rows|
  {
    if rows != [] {
      ResourceCellsUnique(rows[..|rows| - 1]);
    }
  }

  /** `df[df["resource-name"].astype(str).str.strip() == name]`: the rows filed
      under `name`, in sheet order. */
  function Group(rows: seq<Row>, name: string, rd: Reader): (g: seq<Row>)
    ensures forall r :: r in g <==> r in rows && ResourceName(r.resource, rd) == name
    decreases |rows|
  {
    if rows == [] then []
    else
      var rest := Group(rows[1..], name, rd);
      assert forall r :: r in rows <==> r == rows[0] || r in rows[1..];
      if ResourceName(rows[0].resource, rd) == name then [rows[0]] + rest else rest
  }

  /** The names of the resource cells are the names of the rows with a resource. */
  lemma ResourceCellNames(rows: seq<Row>, rd: Reader, name: string)
    ensures (exists c :: c in ResourceCells(rows) && name == ResourceName(c, rd)) <==>
      exists r :: r in rows && r.resource.Full? && name == ResourceName(r.resource, rd)
  {
    var cells := ResourceCells(rows);
    if exists c :: c in cells && name == ResourceName(c, rd) {
      var c :| c in cells && name == ResourceName(c, rd);
      var r :| r in rows && r.resource == c;
    }
    if exists r :: r in rows && r.resource.Full? && name == ResourceName(r.resource, rd) {
      var r :| r in rows && r.resource.Full? && name == ResourceName(r.resource, rd);
      assert r.resource in cells;
    }
  }

  // ---------------------------------------------------------------------------
  // The cells as the pandas-based legacy scripts (6.py, main.py, 5.py, 2.py) use them

  /** `row["resource"]` used as a dict key: an int cell is an int key, any
      other cell is filed under its text (`str()` is also how it is printed). */
  function ResourceKey(c: Cell): (k: Key)
    ensures k.I? <==> c.Full? && c.v.N?
    ensures k.S? ==> k.name == CellStr(c, Pandas)
  {
    match c
    case Full(N(i)) => I(i)
    case _ => S(CellStr(c, Pandas))
  }

  /** `row["arguments"].split(".")`: only a text cell has `split`; any other
      cell (a number, or NaN for an empty cell) raises. */
  function ArgumentParts(c: Cell): (r: Option<seq<string>>)
    ensures r.Some? <==> c.Full? && c.v.Str?
    ensures r.Some? ==> r.value != [] && Join(r.value, ".") == c.v.s
  {
    match c
    case Full(Str(s)) => SplitJoin(s, '.'); Some(Split(s, '.'))
    case _ => None
  }

  /** `row["value"]` after `int(value)`, else `float(value)`, else as it is
      (6.py lines 22-30, main.py lines 22-28). */
  function NumberValue(c: Cell): (n: Node)
    ensures n.Scalar?
    ensures c.Blank? ==> n == Scalar(NaN)
    ensures c.Full? && c.v.N? ==> n == Scalar(c.v)
  {
    assert WholePart("nan") == None by {
      assert DigitRun("nan") == 0;
    }
    Scalar(CoerceNumber(CellNode(c, Pandas).v))
  }

  /** `row["resource"]`, `row["arguments"]` and `row["value"]` raise KeyError
      when the sheet lacks the column; a sheet without rows never looks. */
  predicate ReadsRows(sheet: Sheet)
    ensures sheet.rows == [] ==> ReadsRows(sheet)
    ensures ReadsRows(sheet) && sheet.rows != [] ==> "arguments" in sheet.columns
  {
    sheet.rows == [] || ("resource" in sheet.columns && "arguments" in sheet.columns && "value" in sheet.columns)
  }

  /** The columns 5.py (line 67) and 2.py (line 39) require of a sheet; a sheet
      without them is skipped. */
  predicate HasRequiredColumns(columns: seq<string>) {
    "resource" in columns && "arguments" in columns && "value" in columns && "generate_tfvars_flag" in columns
  }

  /** `df["generate_tfvars_flag"] == True`: Python counts `1` and `1.0` equal
      to `True`, and no text. */
  predicate EqualsTrue(c: Cell)
    ensures EqualsTrue(c) ==> c.Full? && !c.v.Str?
  {
    c == Full(B(true)) || c == Full(N(1)) || c == Full(F(Float("1.0")))
  }

  /** The rows 5.py and 2.py hand to the builder: flagged, and with a resource,
      since `groupby("resource")` leaves out rows whose resource is NaN. */
  predicate Kept(r: Row) {
    EqualsTrue(r.flag) && r.resource.Full?
  }

  /** The two flag tests, `== True` (5.py, 2.py) and the text test (the
      other scripts), agree only on the boolean `True`. `== True` also takes
      the numbers 1 and 1.0; the text test also takes text reading `true`, in
      any case and with surrounding blanks. */
  lemma FlagTests(c: Cell, rd: Reader)
    ensures EqualsTrue(c) && IsTrueText(CellStr(c, rd)) <==> c == Full(B(true))
    ensures EqualsTrue(c) && !IsTrueText(CellStr(c, rd)) <==> c == Full(N(1)) || c == Full(F(Float("1.0")))
    ensures !EqualsTrue(c) && IsTrueText(CellStr(c, rd)) <==>
      c.Full? && (c.v.Str? || c.v.F?) && IsTrueText(ValueText(c.v))
  {
    LowerTrue();
    NoTrueText("1.0");
    NoTrueText("False");
    NoTrueText("None");
    NoTrueText("nan");
    match c
    case Full(N(n)) => DecimalNotTrue(n);
    case _ =>
  }

  lemma LowerTrue()
    ensures IsTrueText("True")
  {
    StripKeeps("True");
    assert Lower("True") == "true" by {
      assert LowerChar('T') == 't';
    }
  }

  /** Text that has no blanks at its ends and does not start with `t` or `T`
      never reads `true`. */
  lemma NoTrueText(s: string)
    requires s != [] && !IsSpace(s[0]) && !IsSpace(s[|s| - 1])
    requires s[0] != 't' && s[0] != 'T'
    ensures !IsTrueText(s)
  {
    StripKeeps(s);
    assert Lower(s)[0] == LowerChar(s[0]);
  }

  /** The text `str()` prints for an int never reads `true`. */
  lemma DecimalNotTrue(n: int)
    ensures !IsTrueText(IntToDecimal(n))
  {
    var s := IntToDecimal(n);
    var d := NatToDecimal(if n < 0 then -n else n);
    assert IsDigit(d[0]) && IsDigit(d[|d| - 1]);
    assert s[|s| - 1] == d[|d| - 1];
    NoTrueText(s);
  }
}
