/** The loader and the `main` of 6.py (lines 5-62): each workbook gets a list
    under its own name, and each of its sheets adds `{sheet_name: sheet_data}`
    to it, where `sheet_data` is built row by row by the resetting builder. */
module WorkbookLoader {
  import opened PyValues
  import opened Tree
  import opened Sheets
  import opened Folds
  import ResetBuilder
  import FixedRender

  /** A workbook as the loop sees it: its file name without `.xlsx` and its
      sheets in order. */
  datatype Workbook = Workbook(name: string, sheets: seq<Sheet>)

  type Loaded = Collections<(string, Entries)>

  /** One row (lines 19-59): `argument.split('.')` raises unless the cell is
      text; the value is made a number where it can be. */
  function SheetRow(sheetData: Entries, r: Row): (res: Result<Entries>)
    ensures res.Ok? ==> r.arguments.Full? && r.arguments.v.Str?
    ensures res.Ok? ==> Has(res.value, ResourceKey(r.resource))
    ensures res.Ok? ==> forall k :: k != ResourceKey(r.resource) ==> Lookup(res.value, k) == Lookup(sheetData, k)
  {
    match ArgumentParts(r.arguments)
    case None => Raises
    case Some(keys) => ResetBuilder.Build(sheetData, ResourceKey(r.resource), keys, NumberValue(r.value))
  }

  /** `sheet_data` after all the rows of a sheet. */
  function SheetData(sheet: Sheet): (res: Result<Entries>)
    ensures sheet.rows == [] ==> res == Ok([])
    ensures sheet.rows != [] && !("resource" in sheet.columns && "arguments" in sheet.columns && "value" in sheet.columns) ==> res.Raises?
  {
    if !ReadsRows(sheet) then Raises else Fold(sheet.rows, [], SheetRow)
  }

  /** The `{sheet_name: sheet_data}` items of one workbook, in sheet order. */
  function SheetItem(items: seq<(string, Entries)>, sheet: Sheet): Result<seq<(string, Entries)>> {
    match SheetData(sheet)
    case Raises => Raises
    case Ok(d) => Ok(items + [(sheet.name, d)])
  }

  function WorkbookStep(cs: Loaded, wb: Workbook): Result<Loaded> {
    match Fold(wb.sheets, [], SheetItem)
    case Raises => Raises
    case Ok(items) => Ok(Extend(Ensure(cs, wb.name), wb.name, items))
  }

  /** `load_parameters_from_directory` over the workbooks in listing order. */
  function LoadAll(wbs: seq<Workbook>): Result<Loaded> {
    Fold(wbs, [], WorkbookStep)
  }

  /** What 6.py writes: the loaded workbooks rendered. */
  function Tfvars(wbs: seq<Workbook>): Result<string> {
    match LoadAll(wbs)
    case Raises => Raises
    case Ok(cs) => FixedRender.Content6(cs)
  }

  // ---------------------------------------------------------------------------
  // The loops

  /** Lines 17-59: the rows of one sheet, in order. */
  method LoadSheet(sheet: Sheet) returns (r: Result<Entries>)
    ensures r == SheetData(sheet)
  {
    if !ReadsRows(sheet) {
      return Raises;
    }
    var sheetData: Entries := [];
    for i := 0 to |sheet.rows|
      invariant Fold(sheet.rows[..i], [], SheetRow) == Ok(sheetData)
    {
      FoldStep(sheet.rows, i, [], SheetRow);
      var row := sheet.rows[i];
      var keys := ArgumentParts(row.arguments);
      if keys.None? {
        FoldStops(sheet.rows, i + 1, [], SheetRow);
        return Raises;
      }
      var next := ResetBuilder.ApplyRow(sheetData, ResourceKey(row.resource), keys.value, NumberValue(row.value));
      if next.Raises? {
        FoldStops(sheet.rows, i + 1, [], SheetRow);
        return Raises;
      }
      sheetData := next.value;
    }
    assert sheet.rows[..|sheet.rows|] == sheet.rows;
    r := Ok(sheetData);
  }

  /** Lines 10-61 for one workbook: the list under its name, then one item per
      sheet appended to it. */
  method LoadWorkbook(collections: Loaded, wb: Workbook) returns (r: Result<Loaded>)
    ensures r == WorkbookStep(collections, wb)
  {
    var cs := Ensure(collections, wb.name);
    ghost var start := cs;
    ghost var items: seq<(string, Entries)> := [];
    ExtendNothing(start, wb.name);
    for j := 0 to |wb.sheets|
      invariant Fold(wb.sheets[..j], [], SheetItem) == Ok(items)
      invariant cs == Extend(start, wb.name, items)
    {
      FoldStep(wb.sheets, j, [], SheetItem);
      var sheet := wb.sheets[j];
      var data := LoadSheet(sheet);
      if data.Raises? {
        FoldStops(wb.sheets, j + 1, [], SheetItem);
        return Raises;
      }
      ExtendTwice(start, wb.name, items, [(sheet.name, data.value)]);
      cs := Extend(cs, wb.name, [(sheet.name, data.value)]);
      items := items + [(sheet.name, data.value)];
    }
    assert wb.sheets[..|wb.sheets|] == wb.sheets;
    r := Ok(cs);
  }

  /** `load_parameters_from_directory(directory)`. */
  method LoadParameters(wbs: seq<Workbook>) returns (r: Result<Loaded>)
    ensures r == LoadAll(wbs)
  {
    var cs: Loaded := [];
    for i := 0 to |wbs|
      invariant Fold(wbs[..i], [], WorkbookStep) == Ok(cs)
    {
      FoldStep(wbs, i, [], WorkbookStep);
      var next := LoadWorkbook(cs, wbs[i]);
      if next.Raises? {
        FoldStops(wbs, i + 1, [], WorkbookStep);
        return Raises;
      }
      cs := next.value;
    }
    assert wbs[..|wbs|] == wbs;
    r := Ok(cs);
  }

  /** `main()`: load, then generate the content that is written out. */
  method Generate(wbs: seq<Workbook>) returns (r: Result<string>)
    ensures r == Tfvars(wbs)
  {
    var loaded := LoadParameters(wbs);
    if loaded.Raises? {
      return Raises;
    }
    r := FixedRender.GenerateContent6(loaded.value);
  }

  // ---------------------------------------------------------------------------
  // Properties of the loader

  /** A row whose path starts with an index leaves its resource a list at the
      end of the sheet: the row turns the resource into a list, and every later
      row either keeps it one or raises. */
  lemma IndexFirstRowMakesList(sheet: Sheet, i: nat, keys: seq<string>)
    requires i < |sheet.rows| && ArgumentParts(sheet.rows[i].arguments) == Some(keys)
    requires IsDigitString(keys[0])
    requires SheetData(sheet).Ok?
    ensures Lookup(SheetData(sheet).value, ResourceKey(sheet.rows[i].resource)).Some?
    ensures Lookup(SheetData(sheet).value, ResourceKey(sheet.rows[i].resource)).value.List?
  {
    var rows := sheet.rows;
    var res := ResourceKey(rows[i].resource);
    FoldSplit(rows, i + 1, [], SheetRow);
    RowMakesList(sheet, i, keys);
    RowsKeepList(res);
    FoldKeeps(rows[i + 1..], Fold(rows[..i + 1], [], SheetRow).value, SheetRow, a => ResourceIsList(a, res));
  }

  /** The row itself leaves its resource a list. */
  lemma RowMakesList(sheet: Sheet, i: nat, keys: seq<string>)
    requires i < |sheet.rows| && ArgumentParts(sheet.rows[i].arguments) == Some(keys)
    requires IsDigitString(keys[0])
    requires Fold(sheet.rows[..i + 1], [], SheetRow).Ok?
    ensures ResourceIsList(Fold(sheet.rows[..i + 1], [], SheetRow).value, ResourceKey(sheet.rows[i].resource))
  {
    var rows := sheet.rows;
    var row := rows[i];
    var res := ResourceKey(row.resource);
    FoldStep(rows, i, [], SheetRow);
    var before := Fold(rows[..i], [], SheetRow).value;
    if Lookup(before, res).Some? && Lookup(before, res).value.List? {
      ResetBuilder.ListStaysList(before, res, keys, NumberValue(row.value));
    } else {
      ResetBuilder.DigitFirstMakesList(before, res, keys, NumberValue(row.value));
    }
  }

  /** Once the resource is a list, every row keeps it one or raises. */
  lemma RowsKeepList(res: Key)
    ensures forall a: Entries, x: Row :: ResourceIsList(a, res) && SheetRow(a, x).Ok? ==>
      ResourceIsList(SheetRow(a, x).value, res)
  {
    forall a: Entries, x: Row | ResourceIsList(a, res) && SheetRow(a, x).Ok?
      ensures ResourceIsList(SheetRow(a, x).value, res)
    {
      var ks := ArgumentParts(x.arguments).value;
      if ResourceKey(x.resource) == res {
        ResetBuilder.ListStaysList(a, res, ks, NumberValue(x.value));
      }
    }
  }

  predicate ResourceIsList(sheetData: Entries, res: Key) {
    Lookup(sheetData, res).Some? && Lookup(sheetData, res).value.List?
  }

  /** The sheet's data sits in one of the loaded lists. */
  ghost predicate Holds(cs: Loaded, s: Sheet) {
    SheetData(s).Ok? && exists c :: c in cs && (s.name, SheetData(s).value) in c.1
  }

  /** Adding a workbook keeps what was loaded and loads its own sheets. */
  lemma WorkbookStepHolds(cs: Loaded, wb: Workbook)
    requires WorkbookStep(cs, wb).Ok?
    ensures forall s :: Holds(cs, s) ==> Holds(WorkbookStep(cs, wb).value, s)
    ensures forall s :: s in wb.sheets ==> Holds(WorkbookStep(cs, wb).value, s)
  {
    var items := Fold(wb.sheets, [], SheetItem).value;
    ItemsOfSheets(wb.sheets);
    var ensured := Ensure(cs, wb.name);
    assert forall c :: c in cs ==> c in ensured;
    ExtendKeeps(ensured, wb.name, items);
  }

  /** Every sheet of every workbook reaches the loaded collections as a
      `{sheet_name: sheet_data}` item. */
  lemma {:induction false} SheetsAreLoaded(wbs: seq<Workbook>)
    requires LoadAll(wbs).Ok?
    ensures forall w, s :: w in wbs && s in w.sheets ==> Holds(LoadAll(wbs).value, s)
    decreases |wbs|
  {
    if wbs != [] {
      var prefix := wbs[..|wbs| - 1];
      var wb := wbs[|wbs| - 1];
      SheetsAreLoaded(prefix);
      WorkbookStepHolds(LoadAll(prefix).value, wb);
      forall w, s | w in wbs && s in w.sheets ensures Holds(LoadAll(wbs).value, s) {
        if w != wb {
          assert w in prefix;
        }
      }
    }
  }

  /** The items of one workbook are its sheets' data, each under its name. */
  lemma {:induction false} ItemsOfSheets(sheets: seq<Sheet>)
    requires Fold(sheets, [], SheetItem).Ok?
    ensures forall s :: s in sheets ==> SheetData(s).Ok? && (s.name, SheetData(s).value) in Fold(sheets, [], SheetItem).value
    decreases |sheets|
  {
    if sheets != [] {
      var prefix := sheets[..|sheets| - 1];
      ItemsOfSheets(prefix);
      forall s | s in sheets
        ensures SheetData(s).Ok? && (s.name, SheetData(s).value) in Fold(sheets, [], SheetItem).value
      {
        if s != sheets[|sheets| - 1] {
          assert s in prefix;
        }
      }
    }
  }

  /** In 6.py one row whose path starts with an index, anywhere in any sheet,
      makes the whole run fail: either loading raises, or the resource is a
      list by the end of its sheet and the renderer's `arguments.items()`
      raises on it. */
  lemma IndexFirstRowFailsRender(wbs: seq<Workbook>, w: Workbook, s: Sheet, i: nat, keys: seq<string>)
    requires w in wbs && s in w.sheets
    requires i < |s.rows| && ArgumentParts(s.rows[i].arguments) == Some(keys)
    requires IsDigitString(keys[0])
    ensures Tfvars(wbs).Raises?
  {
    if LoadAll(wbs).Ok? {
      var cs := LoadAll(wbs).value;
      SheetsAreLoaded(wbs);
      assert Holds(cs, s);
      IndexFirstRowMakesList(s, i, keys);
      var c :| c in cs && (s.name, SheetData(s).value) in c.1;
      ListFailsRender(cs, c, s.name, SheetData(s).value, ResourceKey(s.rows[i].resource));
    }
  }

  /** A loaded resource that is not a dict makes the renderer raise. */
  lemma ListFailsRender(cs: Loaded, c: (string, seq<(string, Entries)>), name: string, d: Entries, res: Key)
    requires c in cs && (name, d) in c.1 && ResourceIsList(d, res)
    ensures FixedRender.Content6(cs).Raises?
  {
    var e := d[Find(d, res)];
    assert e in d && !e.1.Map?;
    FixedRender.Content6Raises(cs);
  }
}
