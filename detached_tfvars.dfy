/** `process_excel_file` and `main` of 5.py (lines 60-116): the flagged rows of
    every sheet with the required columns go through `handle_nested_keys`
    into one dict per workbook; the workbooks' dicts are merged with
    `update`, and the file is written only when there is something in it. */
module DetachedTfvars {
  import opened PyValues
  import opened Tree
  import opened Sheets
  import opened Coerce
  import opened Folds
  import DetachedBuilder
  import CompactRender

  /** Lines 76-78: a text cell of digits becomes an int. */
  function DigitValue(c: Cell): (n: Node)
    ensures n.Scalar?
  {
    Scalar(CoerceDigits(CellNode(c, Pandas).v))
  }

  /** One row of lines 74-79; an unflagged row is left out by line 71. */
  function TfvarsRow(data: Entries, r: Row): (res: Result<Entries>)
    ensures !Kept(r) ==> res == Ok(data)
    ensures res.Ok? && Kept(r) ==> r.arguments.Full? && r.arguments.v.Str? && Has(res.value, ResourceKey(r.resource))
    ensures res.Ok? ==> forall k :: k != ResourceKey(r.resource) ==> Lookup(res.value, k) == Lookup(data, k)
  {
    if !Kept(r) then Ok(data)
    else match ArgumentParts(r.arguments)
      case None => Raises
      case Some(keys) => DetachedBuilder.Build(data, ResourceKey(r.resource), keys, DigitValue(r.value))
  }

  /** Lines 66-79 for one sheet, continuing from the sheets before it. */
  function SheetStep(data: Entries, sheet: Sheet): Result<Entries> {
    if !HasRequiredColumns(sheet.columns) then Ok(data) else Fold(sheet.rows, data, TfvarsRow)
  }

  /** `process_excel_file(file_path)`. */
  function ProcessFile(sheets: seq<Sheet>): Result<Entries> {
    Fold(sheets, [], SheetStep)
  }

  /** `all_tfvars.update(tfvars_data)` (line 108). */
  function MergeStep(all: Entries, sheets: seq<Sheet>): (res: Result<Entries>)
    ensures res.Raises? <==> ProcessFile(sheets).Raises?
    ensures res.Ok? ==> forall e :: e in res.value ==> e in all || e in ProcessFile(sheets).value
  {
    match ProcessFile(sheets)
    case Raises => Raises
    case Ok(data) => Ok(Update(all, data))
  }

  function Collect(files: seq<seq<Sheet>>): Result<Entries> {
    Fold(files, [], MergeStep)
  }

  /** Lines 112-116: the text saved, or nothing when there is no data. */
  function Saved(files: seq<seq<Sheet>>): (res: Result<Option<string>>)
    ensures res.Raises? <==> Collect(files).Raises?
    ensures res.Ok? ==> (res.value.Some? <==> Collect(files).value != [])
  {
    match Collect(files)
    case Raises => Raises
    case Ok(all) => if all != [] then Ok(Some(CompactRender.DictToHcl(all))) else Ok(None)
  }

  // ---------------------------------------------------------------------------
  // The loops

  /** Lines 73-79 for one row. */
  method ProcessRow(data: Entries, row: Row) returns (r: Result<Entries>)
    ensures r == TfvarsRow(data, row)
  {
    if !Kept(row) {
      return Ok(data);
    }
    var keys := ArgumentParts(row.arguments);
    if keys.None? {
      return Raises;
    }
    var resource := ResourceKey(row.resource);
    var (tfvars, resourceData) := Setdefault(data, resource, EmptyMap);
    var t := DetachedBuilder.HandleNestedKeys(resourceData, keys.value, DigitValue(row.value));
    if t.Raises? {
      return Raises;
    }
    r := Ok(Put(tfvars, resource, t.value));
  }

  /** Lines 66-79 for one sheet. */
  method ProcessSheet(data: Entries, sheet: Sheet) returns (r: Result<Entries>)
    ensures r == SheetStep(data, sheet)
  {
    if !HasRequiredColumns(sheet.columns) {
      return Ok(data);
    }
    var acc := data;
    for i := 0 to |sheet.rows|
      invariant Fold(sheet.rows[..i], data, TfvarsRow) == Ok(acc)
    {
      FoldStep(sheet.rows, i, data, TfvarsRow);
      var next := ProcessRow(acc, sheet.rows[i]);
      if next.Raises? {
        FoldStops(sheet.rows, i + 1, data, TfvarsRow);
        return Raises;
      }
      acc := next.value;
    }
    assert sheet.rows[..|sheet.rows|] == sheet.rows;
    r := Ok(acc);
  }

  /** `process_excel_file(file_path)` (lines 60-82). */
  method ProcessExcelFile(sheets: seq<Sheet>) returns (r: Result<Entries>)
    ensures r == ProcessFile(sheets)
  {
    var tfvarsData: Entries := [];
    for i := 0 to |sheets|
      invariant Fold(sheets[..i], [], SheetStep) == Ok(tfvarsData)
    {
      FoldStep(sheets, i, [], SheetStep);
      var next := ProcessSheet(tfvarsData, sheets[i]);
      if next.Raises? {
        FoldStops(sheets, i + 1, [], SheetStep);
        return Raises;
      }
      tfvarsData := next.value;
    }
    assert sheets[..|sheets|] == sheets;
    r := Ok(tfvarsData);
  }

  /** `main()` (lines 99-116): the text that is saved, if any. */
  method Run(files: seq<seq<Sheet>>) returns (r: Result<Option<string>>)
    ensures r == Saved(files)
  {
    var allTfvars: Entries := [];
    for i := 0 to |files|
      invariant Fold(files[..i], [], MergeStep) == Ok(allTfvars)
    {
      FoldStep(files, i, [], MergeStep);
      var data := ProcessExcelFile(files[i]);
      if data.Raises? {
        FoldStops(files, i + 1, [], MergeStep);
        return Raises;
      }
      allTfvars := Update(allTfvars, data.value);
    }
    assert files[..|files|] == files;
    if allTfvars != [] {
      r := Ok(Some(CompactRender.DictToHcl(allTfvars)));
    } else {
      r := Ok(None);
    }
  }

  // ---------------------------------------------------------------------------
  // Properties

  /** Rows that are not kept play no part: the sheet gives what its kept rows
      alone give. */
  lemma OnlyKeptRowsCount(data: Entries, sheet: Sheet)
    requires HasRequiredColumns(sheet.columns)
    ensures SheetStep(data, sheet) == Fold(Filter(sheet.rows, Kept), data, TfvarsRow)
  {
    FoldSkips(sheet.rows, data, TfvarsRow, Kept);
  }

  /** Every resource of the data is without lists. */
  predicate NoLists(data: Entries) {
    forall e :: e in data ==> DetachedBuilder.ListFree(e.1)
  }

  lemma RowNoLists(data: Entries, r: Row)
    requires NoLists(data) && TfvarsRow(data, r).Ok?
    ensures NoLists(TfvarsRow(data, r).value)
  {
    if Kept(r) {
      var keys := ArgumentParts(r.arguments).value;
      var res := ResourceKey(r.resource);
      var (es, root) := Setdefault(data, res, EmptyMap);
      DetachedBuilder.NeverMakesList(root, keys, DigitValue(r.value));
      PutMembers(data, res, EmptyMap);
      PutMembers(es, res, DetachedBuilder.Walk(root, keys, DigitValue(r.value)).value);
    }
  }

  lemma {:induction false} FileNoLists(sheets: seq<Sheet>)
    requires ProcessFile(sheets).Ok?
    ensures NoLists(ProcessFile(sheets).value)
    decreases |sheets|
  {
    forall a, x | NoLists(a) && TfvarsRow(a, x).Ok? ensures NoLists(TfvarsRow(a, x).value) {
      RowNoLists(a, x);
    }
    forall a, s | NoLists(a) && SheetStep(a, s).Ok? ensures NoLists(SheetStep(a, s).value) {
      if HasRequiredColumns(s.columns) {
        FoldKeeps(s.rows, a, TfvarsRow, NoLists);
      }
    }
    FoldKeeps(sheets, [], SheetStep, NoLists);
  }

  /** 5.py never writes a list: `ensure_list`'s lists are never stored, so an
      index in an argument path never reaches the output. */
  lemma OutputHasNoLists(files: seq<seq<Sheet>>)
    requires Collect(files).Ok?
    ensures NoLists(Collect(files).value)
  {
    forall a, f | NoLists(a) && MergeStep(a, f).Ok? ensures NoLists(MergeStep(a, f).value) {
      FileNoLists(f);
    }
    FoldKeeps(files, [], MergeStep, NoLists);
  }

  /** The dict of one workbook never holds a key twice. */
  lemma FileUniqueKeys(sheets: seq<Sheet>)
    requires ProcessFile(sheets).Ok?
    ensures UniqueKeys(ProcessFile(sheets).value)
  {
    forall a, s | UniqueKeys(a) && SheetStep(a, s).Ok? ensures UniqueKeys(SheetStep(a, s).value) {
      if HasRequiredColumns(s.columns) {
        FoldKeeps(s.rows, a, TfvarsRow, a => UniqueKeys(a));
      }
    }
    FoldKeeps(sheets, [], SheetStep, a => UniqueKeys(a));
  }

  /** A resource of a later workbook replaces the same resource of earlier
      ones wholesale: `update` does not merge the arguments. */
  lemma LaterFileWins(files: seq<seq<Sheet>>, f: seq<Sheet>, k: Key)
    requires Collect(files + [f]).Ok?
    ensures Collect(files).Ok? && ProcessFile(f).Ok?
    ensures Lookup(Collect(files + [f]).value, k) ==
      if Has(ProcessFile(f).value, k) then Lookup(ProcessFile(f).value, k) else Lookup(Collect(files).value, k)
  {
    assert (files + [f])[..|files|] == files;
    FileUniqueKeys(f);
    UpdateLookup(Collect(files).value, ProcessFile(f).value, k);
  }

  /** The file is saved exactly when there is data, and what is saved is
      never empty. */
  lemma SavedIsNeverEmpty(files: seq<seq<Sheet>>)
    requires Collect(files).Ok?
    ensures Saved(files).value.Some? <==> Collect(files).value != []
    ensures Saved(files).value.Some? ==> Saved(files).value.value != ""
  {
    CompactRender.EmptyOutput(Collect(files).value);
  }
}
