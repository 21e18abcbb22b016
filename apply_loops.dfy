/** The row loops of `main` in main4.py (lines 153-175), main7.py (lines
    181-210), main8.py (lines 133-179) and main11.py (lines 155-192): which rows
    reach `set_nested_value`, under which `<sheet>_list` and resource name, and
    the text written at the end. */
module ApplyLoops {
  import opened PyValues
  import opened Tree
  import opened Sheets
  import Coerce
  import OB = OverwriteBuilder
  import SB = SetdefaultBuilder
  import HclRender

  datatype Script = Main4 | Main7 | Main8 | Main11

  /** main4.py reads through pandas, the others through openpyxl. */
  function ReaderOf(s: Script): Reader {
    if s == Main4 then Pandas else Openpyxl
  }

  /** main4.py and main7.py replace children of the wrong kind; main8.py and
      main11.py keep them (`setdefault`). */
  predicate Overwrites(s: Script) {
    s == Main4 || s == Main7
  }

  /** The rows that reach `set_nested_value`: flagged `true`, and in main8.py
      and main11.py not the `policy` argument, which goes to a JSON file instead. */
  predicate Selected(s: Script, cols: seq<string>, r: Row)
    ensures Selected(s, cols, r) ==> "gen-tfvars-flag" in cols && r.flag.Full?
    ensures !Overwrites(s) && ArgumentText(cols, r, ReaderOf(s)) == "policy" ==> !Selected(s, cols, r)
  {
    Flagged(cols, r, ReaderOf(s)) && (Overwrites(s) || ArgumentText(cols, r, ReaderOf(s)) != "policy")
  }

  /** `set_nested_value` of the script. */
  function Build(s: Script, res: Node, args: string, value: Node): Result<Node> {
    if Overwrites(s) then OB.Walk(res, Split(args, '.'), value) else SB.Walk(res, Split(args, '.'), value)
  }

  function TopKey(sheet: Sheet): Key {
    S(sheet.name + "_list")
  }

  /** `tfvars_data[top]`, which has to be a dict for the loops to go on. */
  function TopEntries(data: Entries, top: Key): Result<Entries> {
    match Lookup(data, top)
    case Some(Map(es)) => Ok(es)
    case _ => Raises
  }

  /** `tfvars_data[top].setdefault(name, {})`, or the `if name not in ...: = {}`
      of main4.py and main7.py. */
  function Touch(data: Entries, top: Key, name: Key): (r: Result<Entries>)
    ensures r.Ok? <==> TopEntries(data, top).Ok?
  {
    match TopEntries(data, top)
    case Raises => Raises
    case Ok(es) => Ok(Put(data, top, Map(Setdefault(es, name, EmptyMap).0)))
  }

  /** `tfvars_data[top]` is a dict before and after, and holds exactly the
      keys it held and `name`. */
  ghost predicate AddsKey(data: Entries, after: Entries, top: Key, name: Key) {
    TopEntries(data, top).Ok? && TopEntries(after, top).Ok? &&
    forall k :: Has(TopEntries(after, top).value, k) <==> Has(TopEntries(data, top).value, k) || k == name
  }

  /** Touching a resource adds its key and no other. */
  lemma TouchKeys(data: Entries, top: Key, name: Key)
    requires Touch(data, top, name).Ok?
    ensures AddsKey(data, Touch(data, top, name).value, top, name)
  {
    var es := TopEntries(data, top).value;
    PutHas(es, name, EmptyMap);
  }

  /** `tfvars_data[top][name]` set to `m`. */
  function Place(data: Entries, top: Key, es: Entries, name: Key, m: Node): (r: Entries)
    ensures TopEntries(r, top) == Ok(Put(es, name, m))
    ensures forall k :: k != top ==> Lookup(r, k) == Lookup(data, k)
  {
    Put(data, top, Map(Put(es, name, m)))
  }

  /** `tfvars_data[top][name]`, or a fresh `{}` when it is not there yet. */
  function ResourceOf(es: Entries, name: Key): Node {
    match Lookup(es, name)
    case Some(m) => m
    case None => EmptyMap
  }

  /** One row: the value parsed, then written into `tfvars_data[top][name]`
      along the row's `arguments` path. */
  function Apply(s: Script, cols: seq<string>, data: Entries, top: Key, name: Key, r: Row): (res: Result<Entries>)
    ensures res.Ok? ==> TopEntries(data, top).Ok? && TopEntries(res.value, top).Ok?
  {
    match TopEntries(data, top)
    case Raises => Raises
    case Ok(es) =>
      var rd := ReaderOf(s);
      match Build(s, ResourceOf(es, name), ArgumentText(cols, r, rd), Coerce.ParseValue(ValueNode(cols, r, rd)))
      case Raises => Raises
      case Ok(m) => Ok(Place(data, top, es, name, m))
  }

  /** One row adds its resource's key and no other, and changes nothing
      outside `tfvars_data[top]`. */
  lemma ApplyKeys(s: Script, cols: seq<string>, data: Entries, top: Key, name: Key, r: Row)
    requires Apply(s, cols, data, top, name, r).Ok?
    ensures AddsKey(data, Apply(s, cols, data, top, name, r).value, top, name)
    ensures forall k :: k != top ==> Lookup(Apply(s, cols, data, top, name, r).value, k) == Lookup(data, k)
  {
    var es := TopEntries(data, top).value;
    var rd := ReaderOf(s);
    var m := Build(s, ResourceOf(es, name), ArgumentText(cols, r, rd), Coerce.ParseValue(ValueNode(cols, r, rd))).value;
    PutHas(es, name, m);
  }

  // ---------------------------------------------------------------------------
  // main4.py: every flagged row, in sheet order

  /** One row of main4.py: applied under its own resource name if flagged. */
  function Step4(cols: seq<string>, data: Entries, top: Key, r: Row): (res: Result<Entries>)
    ensures !Selected(Main4, cols, r) ==> res == Ok(data)
    ensures res.Ok? && Selected(Main4, cols, r) ==> TopEntries(data, top).Ok? && TopEntries(res.value, top).Ok?
  {
    if Selected(Main4, cols, r) then Apply(Main4, cols, data, top, S(RowResourceName(cols, r, Pandas)), r) else Ok(data)
  }

  function Rows4(cols: seq<string>, data: Entries, top: Key, rows: seq<Row>): (res: Result<Entries>)
    ensures (forall i :: 0 <= i < |rows| ==> !Selected(Main4, cols, rows[i])) ==> res == Ok(data)
    decreases |rows|
  {
    if rows == [] then Ok(data)
    else
      match Step4(cols, data, top, rows[0])
      case Raises => Raises
      case Ok(d) => Rows4(cols, d, top, rows[1..])
  }

  // ---------------------------------------------------------------------------
  // main7.py, main8.py, main11.py: resource by resource

  /** One row of a group: applied if selected, passed over otherwise. */
  function GroupStep(s: Script, cols: seq<string>, data: Entries, top: Key, name: Key, r: Row): Result<Entries> {
    if Selected(s, cols, r) then Apply(s, cols, data, top, name, r) else Ok(data)
  }

  /** The selected rows of one resource's group, applied in sheet order. */
  function GroupRows(s: Script, cols: seq<string>, data: Entries, top: Key, name: Key, rows: seq<Row>): Result<Entries>
    decreases |rows|
  {
    if rows == [] then Ok(data)
    else
      match GroupStep(s, cols, data, top, name, rows[0])
      case Raises => Raises
      case Ok(d) => GroupRows(s, cols, d, top, name, rows[1..])
  }

  /** The column each script reads off the whole group before its row loop:
      `group["gen-tfvars-flag"]` in main7.py (line 201), `group["arguments"]`
      in main8.py (line 151) and main11.py (line 170). Indexing a frame by a
      column it lacks raises KeyError. */
  function GroupColumn(s: Script): string {
    if s == Main7 then "gen-tfvars-flag" else "arguments"
  }

  /** One resource cell: its map is made, the group's column is read (main7.py
      asks whether any row of the group is flagged, main8.py and main11.py
      whether any is a `policy` row), and the group is applied. */
  function OneResource(s: Script, cols: seq<string>, data: Entries, top: Key, rows: seq<Row>, cell: Cell): (res: Result<Entries>)
    ensures GroupColumn(s) !in cols ==> res.Raises?
    ensures TopEntries(data, top).Raises? ==> res.Raises?
  {
    var rd := ReaderOf(s);
    var text := ResourceName(cell, rd);
    var group := Group(rows, text, rd);
    match Touch(data, top, S(text))
    case Raises => Raises
    case Ok(d1) =>
      if GroupColumn(s) !in cols then Raises
      else
        var any := exists r :: r in group && Flagged(cols, r, rd);
        if s == Main7 && !any then Ok(d1) else GroupRows(s, cols, d1, top, S(text), group)
  }

  /** The resource cells one after the other. */
  function Resources(s: Script, cols: seq<string>, data: Entries, top: Key, rows: seq<Row>, cells: seq<Cell>): (res: Result<Entries>)
    ensures cells != [] && GroupColumn(s) !in cols ==> res.Raises?
    ensures cells == [] ==> res == Ok(data)
    decreases |cells|
  {
    if cells == [] then Ok(data)
    else
      match OneResource(s, cols, data, top, rows, cells[0])
      case Raises => Raises
      case Ok(d) => Resources(s, cols, d, top, rows, cells[1..])
  }

  /** One sheet. main4.py and main7.py make `<sheet>_list` first thing;
      main8.py and main11.py skip an empty sheet or one without a
      `resource-name` column before making it, and make it with `setdefault`. */
  function SheetData(s: Script, data: Entries, sheet: Sheet): (res: Result<Entries>)
    ensures !Overwrites(s) && (sheet.rows == [] || "resource-name" !in sheet.columns) ==> res == Ok(data)
    ensures s == Main7 && "resource-name" !in sheet.columns ==> res.Ok? && Has(res.value, TopKey(sheet))
  {
    var top, cols := TopKey(sheet), sheet.columns;
    var hasColumn := "resource-name" in sheet.columns;
    if s == Main4 then
      Rows4(cols, if Has(data, top) then data else Put(data, top, EmptyMap), top, sheet.rows)
    else if s == Main7 then
      var d0 := if Has(data, top) then data else Put(data, top, EmptyMap);
      if !hasColumn then Ok(d0) else Resources(s, cols, d0, top, sheet.rows, ResourceCells(sheet.rows))
    else if sheet.rows == [] || !hasColumn then Ok(data)
    else Resources(s, cols, Setdefault(data, top, EmptyMap).0, top, sheet.rows, ResourceCells(sheet.rows))
  }

  /** Every sheet of every workbook, in order. */
  function Convert(s: Script, data: Entries, sheets: seq<Sheet>): (res: Result<Entries>)
    ensures sheets == [] ==> res == Ok(data)
    ensures sheets != [] && SheetData(s, data, sheets[0]).Raises? ==> res.Raises?
    decreases |sheets|
  {
    if sheets == [] then Ok(data)
    else
      match SheetData(s, data, sheets[0])
      case Raises => Raises
      case Ok(d) => Convert(s, d, sheets[1..])
  }

  /** The `.tfvars` text: `dict_to_hcl(tfvars_data, indent=0)`, escaping in main11.py. */
  function Output(s: Script, data: Entries, sheets: seq<Sheet>): (res: Result<string>)
    ensures Convert(s, data, sheets).Raises? ==> res.Raises?
    ensures Convert(s, data, sheets) == Ok([]) ==> res == Ok("")
  {
    match Convert(s, data, sheets)
    case Raises => Raises
    case Ok(d) => HclRender.DictText(d, 0, s == Main11)
  }

  // ---------------------------------------------------------------------------
  // The loops

  /** `set_nested_value` of the script. */
  method SetNested(s: Script, d: Node, keyStr: string, value: Node) returns (w: Result<Node>)
    ensures w == Build(s, d, keyStr, value)
  {
    if Overwrites(s) {
      w := OB.SetNestedValue(d, keyStr, value);
    } else {
      w := SB.SetNestedValue(d, keyStr, value);
    }
  }

  method ApplyRow(s: Script, cols: seq<string>, data: Entries, top: Key, name: Key, r: Row) returns (res: Result<Entries>)
    ensures res == Apply(s, cols, data, top, name, r)
  {
    var te := TopEntries(data, top);
    if te.Raises? {
      return Raises;
    }
    var es := te.value;
    var rd := ReaderOf(s);
    var w := SetNested(s, ResourceOf(es, name), ArgumentText(cols, r, rd), Coerce.ParseValue(ValueNode(cols, r, rd)));
    if w.Raises? {
      return Raises;
    }
    res := Ok(Place(data, top, es, name, w.value));
  }

  /** One row of main4.py's loop. */
  method Row4(cols: seq<string>, d: Entries, top: Key, r: Row) returns (x: Result<Entries>)
    ensures x == Step4(cols, d, top, r)
  {
    x := Ok(d);
    if Selected(Main4, cols, r) {
      x := ApplyRow(Main4, cols, d, top, S(RowResourceName(cols, r, Pandas)), r);
    }
  }

  /** The row loop of main4.py. */
  method ProcessRows4(cols: seq<string>, data: Entries, top: Key, rows: seq<Row>) returns (res: Result<Entries>)
    ensures res == Rows4(cols, data, top, rows)
  {
    var d, rest := data, rows;
    while rest != []
      invariant Rows4(cols, d, top, rest) == Rows4(cols, data, top, rows)
      decreases |rest|
    {
      var x := Row4(cols, d, top, rest[0]);
      if x.Raises? {
        return Raises;
      }
      d, rest := x.value, rest[1..];
    }
    res := Ok(d);
  }

  /** One row of a group. */
  method GroupRow(s: Script, cols: seq<string>, d: Entries, top: Key, name: Key, r: Row) returns (x: Result<Entries>)
    ensures x == GroupStep(s, cols, d, top, name, r)
  {
    x := Ok(d);
    if Selected(s, cols, r) {
      x := ApplyRow(s, cols, d, top, name, r);
    }
  }

  /** `for _, row in group.iterrows(): ...` */
  method ProcessGroup(s: Script, cols: seq<string>, data: Entries, top: Key, name: Key, rows: seq<Row>) returns (res: Result<Entries>)
    ensures res == GroupRows(s, cols, data, top, name, rows)
  {
    var d, rest := data, rows;
    while rest != []
      invariant GroupRows(s, cols, d, top, name, rest) == GroupRows(s, cols, data, top, name, rows)
      decreases |rest|
    {
      var x := GroupRow(s, cols, d, top, name, rest[0]);
      if x.Raises? {
        return Raises;
      }
      d, rest := x.value, rest[1..];
    }
    res := Ok(d);
  }

  method ProcessResource(s: Script, cols: seq<string>, data: Entries, top: Key, rows: seq<Row>, cell: Cell) returns (res: Result<Entries>)
    ensures res == OneResource(s, cols, data, top, rows, cell)
  {
    var rd := ReaderOf(s);
    var text := ResourceName(cell, rd);
    var group := Group(rows, text, rd);
    var t := Touch(data, top, S(text));
    if t.Raises? {
      return Raises;
    }
    if GroupColumn(s) !in cols {
      return Raises;
    }
    var any := exists r :: r in group && Flagged(cols, r, rd);
    if s == Main7 && !any {
      res := t;
    } else {
      res := ProcessGroup(s, cols, t.value, top, S(text), group);
    }
  }

  /** `for res in df["resource-name"].dropna().unique(): ...` */
  method ProcessResources(s: Script, cols: seq<string>, data: Entries, top: Key, rows: seq<Row>) returns (res: Result<Entries>)
    ensures res == Resources(s, cols, data, top, rows, ResourceCells(rows))
  {
    var cells := ResourceCells(rows);
    var d, rest := data, cells;
    while rest != []
      invariant Resources(s, cols, d, top, rows, rest) == Resources(s, cols, data, top, rows, cells)
      decreases |rest|
    {
      var x := ProcessResource(s, cols, d, top, rows, rest[0]);
      if x.Raises? {
        return Raises;
      }
      d, rest := x.value, rest[1..];
    }
    res := Ok(d);
  }

  method ProcessSheet(s: Script, data: Entries, sheet: Sheet) returns (res: Result<Entries>)
    ensures res == SheetData(s, data, sheet)
  {
    var top, cols := TopKey(sheet), sheet.columns;
    if s == Main4 || s == Main7 {
      var d0 := data;
      if !Has(d0, top) {
        d0 := Put(d0, top, EmptyMap);
      }
      if s == Main4 {
        res := ProcessRows4(cols, d0, top, sheet.rows);
      } else if "resource-name" !in sheet.columns {
        res := Ok(d0);
      } else {
        res := ProcessResources(s, cols, d0, top, sheet.rows);
      }
    } else if sheet.rows == [] || "resource-name" !in sheet.columns {
      res := Ok(data);
    } else {
      res := ProcessResources(s, cols, Setdefault(data, top, EmptyMap).0, top, sheet.rows);
    }
  }

  /** The loop over workbooks and sheets in `main`. */
  method ConvertSheets(s: Script, data: Entries, sheets: seq<Sheet>) returns (res: Result<Entries>)
    ensures res == Convert(s, data, sheets)
  {
    var d, rest := data, sheets;
    while rest != []
      invariant Convert(s, d, rest) == Convert(s, data, sheets)
      decreases |rest|
    {
      var x := ProcessSheet(s, d, rest[0]);
      if x.Raises? {
        return Raises;
      }
      d, rest := x.value, rest[1..];
    }
    res := Ok(d);
  }

  // ---------------------------------------------------------------------------
  // What the loops promise

  /** The rows of a group that reach `set_nested_value`. */
  function SelectedRows(s: Script, cols: seq<string>, rows: seq<Row>): (sel: seq<Row>)
    ensures forall r :: r in sel <==> r in rows && Selected(s, cols, r)
    decreases |rows|
  {
    if rows == [] then []
    else
      assert forall r :: r in rows <==> r == rows[0] || r in rows[1..];
      (if Selected(s, cols, rows[0]) then [rows[0]] else []) + SelectedRows(s, cols, rows[1..])
  }

  /** Only the selected rows matter: the group applied is the same as its
      selected rows applied, so an unflagged row (or, in main8.py and
      main11.py, a `policy` row) never changes the tree. */
  lemma {:induction false} OnlySelectedRowsApply(s: Script, cols: seq<string>, data: Entries, top: Key, name: Key, rows: seq<Row>)
    ensures GroupRows(s, cols, data, top, name, rows) == GroupRows(s, cols, data, top, name, SelectedRows(s, cols, rows))
    decreases |rows|
  {
    if rows != [] {
      var sel := SelectedRows(s, cols, rows);
      if Selected(s, cols, rows[0]) {
        assert sel[0] == rows[0] && sel[1..] == SelectedRows(s, cols, rows[1..]);
        match GroupStep(s, cols, data, top, name, rows[0])
        case Raises =>
        case Ok(d) => OnlySelectedRowsApply(s, cols, d, top, name, rows[1..]);
      } else {
        assert sel == SelectedRows(s, cols, rows[1..]);
        OnlySelectedRowsApply(s, cols, data, top, name, rows[1..]);
      }
    }
  }

  /** A group with no selected row leaves the tree as it was. */
  lemma NothingSelectedNothingChanges(s: Script, cols: seq<string>, data: Entries, top: Key, name: Key, rows: seq<Row>)
    requires forall r :: r in rows ==> !Selected(s, cols, r)
    ensures GroupRows(s, cols, data, top, name, rows) == Ok(data)
  {
    OnlySelectedRowsApply(s, cols, data, top, name, rows);
    assert SelectedRows(s, cols, rows) == [];
  }

  /** The `any(...)` test of main7.py (line 201) changes nothing once the
      flag column is there: a group with no flagged row would have written
      nothing anyway. Without the column it is where main7.py raises. */
  lemma AnyTestChangesNothing(cols: seq<string>, data: Entries, top: Key, rows: seq<Row>, cell: Cell)
    ensures OneResource(Main7, cols, data, top, rows, cell) ==
      var text := ResourceName(cell, Openpyxl);
      match Touch(data, top, S(text))
      case Raises => Raises
      case Ok(d1) =>
        if "gen-tfvars-flag" !in cols then Raises
        else GroupRows(Main7, cols, d1, top, S(text), Group(rows, text, Openpyxl))
  {
    var text := ResourceName(cell, Openpyxl);
    var group := Group(rows, text, Openpyxl);
    match Touch(data, top, S(text))
    case Raises =>
    case Ok(d1) =>
      if "gen-tfvars-flag" in cols && !exists r :: r in group && Flagged(cols, r, Openpyxl) {
        NothingSelectedNothingChanges(Main7, cols, d1, top, S(text), group);
      }
  }

  /** A group adds no resource but its own, and that one only if a row of it
      is selected. */
  lemma {:induction false} GroupRowsKeys(s: Script, cols: seq<string>, data: Entries, top: Key, name: Key, rows: seq<Row>)
    requires TopEntries(data, top).Ok?
    ensures GroupRows(s, cols, data, top, name, rows).Ok? ==>
      var after := GroupRows(s, cols, data, top, name, rows).value;
      TopEntries(after, top).Ok? && forall k ::
        Has(TopEntries(after, top).value, k) <==>
        Has(TopEntries(data, top).value, k) || (k == name && exists r :: r in rows && Selected(s, cols, r))
    decreases |rows|
  {
    if rows != [] {
      assert forall r :: r in rows <==> r == rows[0] || r in rows[1..];
      match GroupStep(s, cols, data, top, name, rows[0])
      case Raises =>
      case Ok(d) =>
        if Selected(s, cols, rows[0]) {
          ApplyKeys(s, cols, data, top, name, rows[0]);
        }
        GroupRowsKeys(s, cols, d, top, name, rows[1..]);
    }
  }

  /** One resource cell adds its resource's key, flagged or not, and no other. */
  lemma OneResourceKeys(s: Script, cols: seq<string>, data: Entries, top: Key, rows: seq<Row>, cell: Cell, after: Entries)
    requires OneResource(s, cols, data, top, rows, cell) == Ok(after)
    ensures AddsKey(data, after, top, S(ResourceName(cell, ReaderOf(s))))
  {
    var rd := ReaderOf(s);
    var text := ResourceName(cell, rd);
    var group := Group(rows, text, rd);
    TouchKeys(data, top, S(text));
    var d1 := Touch(data, top, S(text)).value;
    if !(s == Main7 && !exists r :: r in group && Flagged(cols, r, rd)) {
      GroupRowsKeys(s, cols, d1, top, S(text), group);
    }
  }

  /** main4.py: after a sheet's rows, `tfvars_data[top]` holds the resources it
      held and the name of every flagged row, and nothing else. */
  lemma {:induction false} Rows4Keys(cols: seq<string>, data: Entries, top: Key, rows: seq<Row>)
    requires TopEntries(data, top).Ok?
    ensures Rows4(cols, data, top, rows).Ok? ==>
      var after := Rows4(cols, data, top, rows).value;
      TopEntries(after, top).Ok? && forall k ::
        Has(TopEntries(after, top).value, k) <==>
        Has(TopEntries(data, top).value, k) ||
        exists r :: r in rows && Selected(Main4, cols, r) && k == S(RowResourceName(cols, r, Pandas))
    decreases |rows|
  {
    if rows != [] {
      assert forall r :: r in rows <==> r == rows[0] || r in rows[1..];
      match Step4(cols, data, top, rows[0])
      case Raises =>
      case Ok(d) =>
        if Selected(Main4, cols, rows[0]) {
          ApplyKeys(Main4, cols, data, top, S(RowResourceName(cols, rows[0], Pandas)), rows[0]);
        }
        Rows4Keys(cols, d, top, rows[1..]);
    }
  }

  /** main7.py, main8.py and main11.py: after the resource cells, `tfvars_data[top]`
      holds the resources it held and one map per resource cell, flagged or not. */
  lemma {:induction false} ResourcesKeys(s: Script, cols: seq<string>, data: Entries, top: Key, rows: seq<Row>, cells: seq<Cell>, after: Entries)
    requires TopEntries(data, top).Ok?
    requires Resources(s, cols, data, top, rows, cells) == Ok(after)
    ensures TopEntries(after, top).Ok?
    ensures forall k :: Has(TopEntries(after, top).value, k) <==>
      Has(TopEntries(data, top).value, k) || exists c :: c in cells && k == S(ResourceName(c, ReaderOf(s)))
    decreases |cells|
  {
    if cells != [] {
      assert forall c :: c in cells <==> c == cells[0] || c in cells[1..];
      var rd := ReaderOf(s);
      var one := OneResource(s, cols, data, top, rows, cells[0]);
      assert one.Ok?;
      var d := one.value;
      OneResourceKeys(s, cols, data, top, rows, cells[0], d);
      assert Resources(s, cols, d, top, rows, cells[1..]) == Ok(after);
      ResourcesKeys(s, cols, d, top, rows, cells[1..], after);
      forall k
        ensures Has(TopEntries(after, top).value, k) <==>
          Has(TopEntries(data, top).value, k) || exists c :: c in cells && k == S(ResourceName(c, rd))
      {
        if k == S(ResourceName(cells[0], rd)) {
          assert cells[0] in cells;
        }
      }
    }
  }

  /** main4.py files a sheet's resources under `<sheet>_list` only when some
      row of theirs is flagged. */
  lemma Main4SheetResources(data: Entries, sheet: Sheet)
    requires !Has(data, TopKey(sheet))
    ensures SheetData(Main4, data, sheet).Ok? ==>
      var top := TopEntries(SheetData(Main4, data, sheet).value, TopKey(sheet));
      top.Ok? && forall k :: Has(top.value, k) <==>
        exists r :: r in sheet.rows && Flagged(sheet.columns, r, Pandas) &&
          k == S(RowResourceName(sheet.columns, r, Pandas))
  {
    var top := TopKey(sheet);
    var d0 := Put(data, top, EmptyMap);
    assert TopEntries(d0, top) == Ok([]);
    Rows4Keys(sheet.columns, d0, top, sheet.rows);
  }

  /** main4.py on a sheet without a `resource-name` column: `row.get` gives
      `None`, so every flagged row is filed under the one resource `None`. */
  lemma Main4WithoutResourceColumn(data: Entries, sheet: Sheet)
    requires !Has(data, TopKey(sheet)) && "resource-name" !in sheet.columns
    ensures SheetData(Main4, data, sheet).Ok? ==>
      var top := TopEntries(SheetData(Main4, data, sheet).value, TopKey(sheet));
      top.Ok? && forall k :: Has(top.value, k) <==>
        k == S("None") && exists r :: r in sheet.rows && Flagged(sheet.columns, r, Pandas)
  {
    StripKeeps("None");
    Main4SheetResources(data, sheet);
  }

  /** main4.py on a sheet without a `gen-tfvars-flag` column: `row.get` gives
      `""`, no row is flagged, and the sheet only adds an empty `<sheet>_list`. */
  lemma Main4WithoutFlagColumn(data: Entries, sheet: Sheet)
    requires "gen-tfvars-flag" !in sheet.columns
    ensures SheetData(Main4, data, sheet) ==
      Ok(if Has(data, TopKey(sheet)) then data else Put(data, TopKey(sheet), EmptyMap))
  {
    var d0 := if Has(data, TopKey(sheet)) then data else Put(data, TopKey(sheet), EmptyMap);
    NoFlagRows4(sheet.columns, d0, TopKey(sheet), sheet.rows);
  }

  lemma {:induction false} NoFlagRows4(cols: seq<string>, data: Entries, top: Key, rows: seq<Row>)
    requires "gen-tfvars-flag" !in cols
    ensures Rows4(cols, data, top, rows) == Ok(data)
    decreases |rows|
  {
    if rows != [] {
      assert !Flagged(cols, rows[0], Pandas);
      NoFlagRows4(cols, data, top, rows[1..]);
    }
  }

  /** main7.py, main8.py and main11.py on a sheet that names a resource but
      lacks the column the group is first read by (`gen-tfvars-flag` in
      main7.py, `arguments` in the other two): the script stops with KeyError. */
  lemma MissingGroupColumnRaises(s: Script, data: Entries, sheet: Sheet)
    requires s != Main4 && "resource-name" in sheet.columns && GroupColumn(s) !in sheet.columns
    requires exists r :: r in sheet.rows && r.resource.Full?
    ensures SheetData(s, data, sheet) == Raises
  {
    var r :| r in sheet.rows && r.resource.Full?;
    var cells := ResourceCells(sheet.rows);
    assert r.resource in cells;
    var top := TopKey(sheet);
    var d0 := if s == Main7 then (if Has(data, top) then data else Put(data, top, EmptyMap)) else Setdefault(data, top, EmptyMap).0;
    assert SheetData(s, data, sheet) == Resources(s, sheet.columns, d0, top, sheet.rows, cells);
    assert OneResource(s, sheet.columns, d0, top, sheet.rows, cells[0]) == Raises;
  }

  lemma SheetDataGrouped(s: Script, data: Entries, sheet: Sheet)
    requires s != Main4 && !Has(data, TopKey(sheet)) && "resource-name" in sheet.columns && sheet.rows != []
    ensures SheetData(s, data, sheet) ==
      Resources(s, sheet.columns, Put(data, TopKey(sheet), EmptyMap), TopKey(sheet), sheet.rows, ResourceCells(sheet.rows))
  {
  }

  /** main7.py, main8.py and main11.py file every named resource of a sheet
      under `<sheet>_list`, flagged or not (an empty map when none is). */
  lemma GroupedSheetResources(s: Script, data: Entries, sheet: Sheet, after: Entries)
    requires s != Main4 && !Has(data, TopKey(sheet)) && "resource-name" in sheet.columns && sheet.rows != []
    requires SheetData(s, data, sheet) == Ok(after)
    ensures TopEntries(after, TopKey(sheet)).Ok?
    ensures forall name :: Has(TopEntries(after, TopKey(sheet)).value, S(name)) <==>
      exists r :: r in sheet.rows && r.resource.Full? && name == ResourceName(r.resource, ReaderOf(s))
  {
    SheetDataGrouped(s, data, sheet);
    ResourcesFromNothing(s, sheet.columns, Put(data, TopKey(sheet), EmptyMap), TopKey(sheet), sheet.rows, after);
  }

  /** The resource cells run from an empty `<sheet>_list` file every named
      resource and nothing else. */
  lemma ResourcesFromNothing(s: Script, cols: seq<string>, d0: Entries, top: Key, rows: seq<Row>, after: Entries)
    requires TopEntries(d0, top) == Ok([])
    requires Resources(s, cols, d0, top, rows, ResourceCells(rows)) == Ok(after)
    ensures TopEntries(after, top).Ok?
    ensures forall name :: Has(TopEntries(after, top).value, S(name)) <==>
      exists r :: r in rows && r.resource.Full? && name == ResourceName(r.resource, ReaderOf(s))
  {
    var rd := ReaderOf(s);
    NameFiled(s, cols, d0, top, rows, after, "");
    forall name
      ensures Has(TopEntries(after, top).value, S(name)) <==>
        exists r :: r in rows && r.resource.Full? && name == ResourceName(r.resource, rd)
    {
      NameFiled(s, cols, d0, top, rows, after, name);
      ResourceCellNames(rows, rd, name);
    }
  }

  /** One name: it is filed exactly when one of the resource cells carries it. */
  lemma NameFiled(s: Script, cols: seq<string>, d0: Entries, top: Key, rows: seq<Row>, after: Entries, name: string)
    requires TopEntries(d0, top) == Ok([])
    requires Resources(s, cols, d0, top, rows, ResourceCells(rows)) == Ok(after)
    ensures TopEntries(after, top).Ok?
    ensures Has(TopEntries(after, top).value, S(name)) <==>
      exists c :: c in ResourceCells(rows) && name == ResourceName(c, ReaderOf(s))
  {
    ResourcesKeys(s, cols, d0, top, rows, ResourceCells(rows), after);
    assert !Has([], S(name));
  }

  /** The workbooks' sheets are converted one after the other: converting two
      runs of sheets is converting the first and then, from its result, the
      second; an exception in the first run ends the conversion. */
  lemma {:induction false} ConvertAppend(s: Script, data: Entries, a: seq<Sheet>, b: seq<Sheet>)
    ensures Convert(s, data, a + b) ==
      match Convert(s, data, a) case Raises => Raises case Ok(d) => Convert(s, d, b)
    decreases |a|
  {
    if a == [] {
      assert a + b == b;
    } else {
      assert (a + b)[0] == a[0] && (a + b)[1..] == a[1..] + b;
      match SheetData(s, data, a[0])
      case Raises =>
      case Ok(d) => ConvertAppend(s, d, a[1..], b);
    }
  }

  /** The text fails to come out only where main11.py escapes a `None` hole:
      main4.py, main7.py and main8.py always render a tree they built. */
  lemma OutputRaises(s: Script, data: Entries, sheets: seq<Sheet>)
    ensures Output(s, data, sheets).Raises? <==>
      Convert(s, data, sheets).Raises? ||
      (s == Main11 && !HclRender.EntriesNullFree(Convert(s, data, sheets).value))
  {
    match Convert(s, data, sheets)
    case Raises =>
    case Ok(d) => HclRender.DictRaises(d, 0, s == Main11);
  }
}
