/** The loader and the `main` of main.py (lines 5-39): every sheet adds its
    `resource_data` to the list named `{sheet_name}_list`, so sheets with the
    same name in different workbooks share a list; `resource_data` is built
    row by row by the plain dict builder. */
module SheetListLoader {
  import opened PyValues
  import opened Tree
  import opened Sheets
  import opened Folds
  import KeyWalk
  import FixedRender

  type Loaded = Collections<Entries>

  /** One row (lines 18-36): the resource's dict is the first key of the walk. */
  function ResourceRow(resourceData: Entries, r: Row): (res: Result<Entries>)
    ensures res.Ok? ==> r.arguments.Full? && r.arguments.v.Str?
    ensures res.Ok? ==> Has(res.value, ResourceKey(r.resource))
    ensures res.Ok? ==> forall k :: k != ResourceKey(r.resource) ==> Lookup(res.value, k) == Lookup(resourceData, k)
  {
    match ArgumentParts(r.arguments)
    case None => Raises
    case Some(keys) =>
      match KeyWalk.WalkKeys(Map(resourceData), [ResourceKey(r.resource)] + KeyWalk.StrKeys(keys), NumberValue(r.value))
      case Raises => Raises
      case Ok(n) => Ok(n.entries)
  }

  /** `resource_data` after all the rows of a sheet. */
  function ResourceData(sheet: Sheet): Result<Entries> {
    if !ReadsRows(sheet) then Raises else Fold(sheet.rows, [], ResourceRow)
  }

  /** `f"{sheet_name}_list"`. */
  function ListName(sheet: Sheet): string {
    sheet.name + "_list"
  }

  function SheetStep(cs: Loaded, sheet: Sheet): Result<Loaded> {
    match ResourceData(sheet)
    case Raises => Raises
    case Ok(d) => Ok(Extend(Ensure(cs, ListName(sheet)), ListName(sheet), [d]))
  }

  /** The sheets of one workbook, continuing from what earlier workbooks loaded. */
  function WorkbookStep(cs: Loaded, sheets: seq<Sheet>): Result<Loaded> {
    Fold(sheets, cs, SheetStep)
  }

  /** `load_parameters_from_directory` over the workbooks in listing order. */
  function LoadAll(files: seq<seq<Sheet>>): Result<Loaded> {
    Fold(files, [], WorkbookStep)
  }

  /** What main.py writes: the loaded lists rendered. */
  function Tfvars(files: seq<seq<Sheet>>): Result<string> {
    match LoadAll(files)
    case Raises => Raises
    case Ok(cs) => FixedRender.ContentMain(cs)
  }

  // ---------------------------------------------------------------------------
  // The loops

  /** Lines 18-36: one row. */
  method LoadRow(resourceData: Entries, row: Row) returns (r: Result<Entries>)
    ensures r == ResourceRow(resourceData, row)
  {
    var keys := ArgumentParts(row.arguments);
    if keys.None? {
      return Raises;
    }
    var next := KeyWalk.SetPath(Map(resourceData), [ResourceKey(row.resource)] + KeyWalk.StrKeys(keys.value), NumberValue(row.value));
    if next.Raises? {
      return Raises;
    }
    r := Ok(next.value.entries);
  }

  /** Lines 16-38: the rows of one sheet, in order. */
  method LoadSheet(sheet: Sheet) returns (r: Result<Entries>)
    ensures r == ResourceData(sheet)
  {
    if !ReadsRows(sheet) {
      return Raises;
    }
    var resourceData: Entries := [];
    for i := 0 to |sheet.rows|
      invariant Fold(sheet.rows[..i], [], ResourceRow) == Ok(resourceData)
    {
      FoldStep(sheet.rows, i, [], ResourceRow);
      var next := LoadRow(resourceData, sheet.rows[i]);
      if next.Raises? {
        FoldStops(sheet.rows, i + 1, [], ResourceRow);
        return Raises;
      }
      resourceData := next.value;
    }
    assert sheet.rows[..|sheet.rows|] == sheet.rows;
    r := Ok(resourceData);
  }

  /** Lines 10-38 for one workbook. */
  method LoadWorkbook(collections: Loaded, sheets: seq<Sheet>) returns (r: Result<Loaded>)
    ensures r == WorkbookStep(collections, sheets)
  {
    var cs := collections;
    for j := 0 to |sheets|
      invariant Fold(sheets[..j], collections, SheetStep) == Ok(cs)
    {
      FoldStep(sheets, j, collections, SheetStep);
      var name := ListName(sheets[j]);
      cs := Ensure(cs, name);
      var data := LoadSheet(sheets[j]);
      if data.Raises? {
        FoldStops(sheets, j + 1, collections, SheetStep);
        return Raises;
      }
      cs := Extend(cs, name, [data.value]);
    }
    assert sheets[..|sheets|] == sheets;
    r := Ok(cs);
  }

  /** `load_parameters_from_directory(directory)`. */
  method LoadParameters(files: seq<seq<Sheet>>) returns (r: Result<Loaded>)
    ensures r == LoadAll(files)
  {
    var cs: Loaded := [];
    for i := 0 to |files|
      invariant Fold(files[..i], [], WorkbookStep) == Ok(cs)
    {
      FoldStep(files, i, [], WorkbookStep);
      var next := LoadWorkbook(cs, files[i]);
      if next.Raises? {
        FoldStops(files, i + 1, [], WorkbookStep);
        return Raises;
      }
      cs := next.value;
    }
    assert files[..|files|] == files;
    r := Ok(cs);
  }

  /** `main()`: load, then generate the content that is written out. */
  method Generate(files: seq<seq<Sheet>>) returns (r: Result<string>)
    ensures r == Tfvars(files)
  {
    var loaded := LoadParameters(files);
    if loaded.Raises? {
      return Raises;
    }
    r := FixedRender.GenerateContentMain(loaded.value);
  }

  // ---------------------------------------------------------------------------
  // Properties of the loader

  /** Every resource of a `resource_data` is a dict. */
  predicate AllDicts(d: Entries) {
    forall e :: e in d ==> e.1.Map?
  }

  ghost predicate AllLoadedDicts(cs: Loaded) {
    forall c, d :: c in cs && d in c.1 ==> AllDicts(d)
  }

  /** A row leaves every resource a dict: the walk starts with the resource's
      dict and only ever stores dicts on the way. */
  lemma RowKeepsDicts(d: Entries, r: Row)
    requires AllDicts(d) && ResourceRow(d, r).Ok?
    ensures AllDicts(ResourceRow(d, r).value)
  {
    var keys := ArgumentParts(r.arguments).value;
    var res := ResourceKey(r.resource);
    var ks := [res] + KeyWalk.StrKeys(keys);
    var (es, c) := Setdefault(d, res, EmptyMap);
    var c' := KeyWalk.WalkKeys(c, ks[1..], NumberValue(r.value)).value;
    PutMembers(d, res, EmptyMap);
    PutMembers(es, res, c');
  }

  lemma SheetKeepsDicts(sheet: Sheet)
    requires ResourceData(sheet).Ok?
    ensures AllDicts(ResourceData(sheet).value)
  {
    forall a, x | AllDicts(a) && ResourceRow(a, x).Ok? ensures AllDicts(ResourceRow(a, x).value) {
      RowKeepsDicts(a, x);
    }
    FoldKeeps(sheet.rows, [], ResourceRow, AllDicts);
  }

  lemma SheetStepKeepsDicts(cs: Loaded, sheet: Sheet)
    requires AllLoadedDicts(cs) && SheetStep(cs, sheet).Ok?
    ensures AllLoadedDicts(SheetStep(cs, sheet).value)
  {
    var name := ListName(sheet);
    var ensured := Ensure(cs, name);
    SheetKeepsDicts(sheet);
    EnsureMembers(cs, name);
    ListOfMembers(ensured, name);
    ExtendMembers(ensured, name, [ResourceData(sheet).value]);
  }

  lemma {:induction false} WorkbookKeepsDicts(cs: Loaded, sheets: seq<Sheet>)
    requires AllLoadedDicts(cs) && WorkbookStep(cs, sheets).Ok?
    ensures AllLoadedDicts(WorkbookStep(cs, sheets).value)
    decreases |sheets|
  {
    if sheets != [] {
      var prefix := sheets[..|sheets| - 1];
      WorkbookKeepsDicts(cs, prefix);
      SheetStepKeepsDicts(WorkbookStep(cs, prefix).value, sheets[|sheets| - 1]);
    }
  }

  lemma {:induction false} LoadedAreDicts(files: seq<seq<Sheet>>)
    requires LoadAll(files).Ok?
    ensures AllLoadedDicts(LoadAll(files).value)
    decreases |files|
  {
    if files != [] {
      var prefix := files[..|files| - 1];
      LoadedAreDicts(prefix);
      WorkbookKeepsDicts(LoadAll(prefix).value, files[|files| - 1]);
    }
  }

  /** Unlike 6.py, main.py never fails in the renderer: whatever loads, renders. */
  lemma LoadedRenders(files: seq<seq<Sheet>>)
    ensures LoadAll(files).Ok? <==> Tfvars(files).Ok?
  {
    if LoadAll(files).Ok? {
      var cs := LoadAll(files).value;
      LoadedAreDicts(files);
      FixedRender.ContentMainRaises(cs);
      forall c, d, e | c in cs && d in c.1 && e in d ensures e.1.Map? {
        assert AllDicts(d);
      }
    }
  }
}
