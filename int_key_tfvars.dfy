/** `process_excel_file` and `main` of 2.py (lines 30-94): like 5.py, but the
    flagged rows go through a plain `setdefault` walk in which a piece of
    digits becomes an int key, the value is stored as read, and the file is
    written even when there is no data. */
module IntKeyTfvars {
  import opened PyValues
  import opened Tree
  import opened Sheets
  import opened Folds
  import KeyWalk
  import DetachedBuilder
  import CompactRender

  /** One row of lines 48-62; an unflagged row is left out by line 43. */
  function TfvarsRow(data: Entries, r: Row): (res: Result<Entries>)
    ensures !Kept(r) ==> res == Ok(data)
    ensures res.Ok? && Kept(r) ==> r.arguments.Full? && r.arguments.v.Str? && Has(res.value, ResourceKey(r.resource))
    ensures res.Ok? ==> forall k :: k != ResourceKey(r.resource) ==> Lookup(res.value, k) == Lookup(data, k)
  {
    if !Kept(r) then Ok(data)
    else match ArgumentParts(r.arguments)
      case None => Raises
      case Some(keys) =>
        match KeyWalk.WalkKeys(Map(data), [ResourceKey(r.resource)] + KeyWalk.IntKeys(keys), CellNode(r.value, Pandas))
        case Raises => Raises
        case Ok(n) => Ok(n.entries)
  }

  /** Lines 37-62 for one sheet, continuing from the sheets before it. */
  function SheetStep(data: Entries, sheet: Sheet): Result<Entries> {
    if !HasRequiredColumns(sheet.columns) then Ok(data) else Fold(sheet.rows, data, TfvarsRow)
  }

  /** `process_excel_file(file_path)`. */
  function ProcessFile(sheets: seq<Sheet>): Result<Entries> {
    Fold(sheets, [], SheetStep)
  }

  /** `all_tfvars.update(tfvars_data)` (line 91). */
  function MergeStep(all: Entries, sheets: seq<Sheet>): (res: Result<Entries>)
    ensures res.Raises? <==> ProcessFile(sheets).Raises?
    ensures res.Ok? ==> forall e :: e in res.value ==> e in all || e in ProcessFile(sheets).value
  {
    match ProcessFile(sheets)
    case Raises => Raises
    case Ok(data) => Ok(Update(all, data))
  }

  function Collect(files: seq<seq<Sheet>>): Result<Entries> {
    Fold(files, [], MergeStep)
  }

  /** Line 94: the text written, whatever was collected. */
  function Written(files: seq<seq<Sheet>>): Result<string> {
    match Collect(files)
    case Raises => Raises
    case Ok(all) => Ok(CompactRender.DictToHcl(all))
  }

  // ---------------------------------------------------------------------------
  // The loops

  /** Lines 47-62 for one row. */
  method ProcessRow(data: Entries, row: Row) returns (r: Result<Entries>)
    ensures r == TfvarsRow(data, row)
  {
    if !Kept(row) {
      return Ok(data);
    }
    var keys := ArgumentParts(row.arguments);
    if keys.None? {
      return Raises;
    }
    var next := KeyWalk.SetPath(Map(data), [ResourceKey(row.resource)] + KeyWalk.IntKeys(keys.value), CellNode(row.value, Pandas));
    if next.Raises? {
      return Raises;
    }
    r := Ok(next.value.entries);
  }

  /** Lines 37-62 for one sheet. */
  method ProcessSheet(data: Entries, sheet: Sheet) returns (r: Result<Entries>)
    ensures r == SheetStep(data, sheet)
  {
    if !HasRequiredColumns(sheet.columns) {
      return Ok(data);
    }
    var acc := data;
    for i := 0 to |sheet.rows|
      invariant Fold(sheet.rows[..i], data, TfvarsRow) == Ok(acc)
    {
      FoldStep(sheet.rows, i, data, TfvarsRow);
      var next := ProcessRow(acc, sheet.rows[i]);
      if next.Raises? {
        FoldStops(sheet.rows, i + 1, data, TfvarsRow);
        return Raises;
      }
      acc := next.value;
    }
    assert sheet.rows[..|sheet.rows|] == sheet.rows;
    r := Ok(acc);
  }

  /** `process_excel_file(file_path)` (lines 30-63). */
  method ProcessExcelFile(sheets: seq<Sheet>) returns (r: Result<Entries>)
    ensures r == ProcessFile(sheets)
  {
    var tfvarsData: Entries := [];
    for i := 0 to |sheets|
      invariant Fold(sheets[..i], [], SheetStep) == Ok(tfvarsData)
    {
      FoldStep(sheets, i, [], SheetStep);
      var next := ProcessSheet(tfvarsData, sheets[i]);
      if next.Raises? {
        FoldStops(sheets, i + 1, [], SheetStep);
        return Raises;
      }
      tfvarsData := next.value;
    }
    assert sheets[..|sheets|] == sheets;
    r := Ok(tfvarsData);
  }

  /** `main()` (lines 82-94): the text that is written. */
  method Run(files: seq<seq<Sheet>>) returns (r: Result<string>)
    ensures r == Written(files)
  {
    var allTfvars: Entries := [];
    for i := 0 to |files|
      invariant Fold(files[..i], [], MergeStep) == Ok(allTfvars)
    {
      FoldStep(files, i, [], MergeStep);
      var data := ProcessExcelFile(files[i]);
      if data.Raises? {
        FoldStops(files, i + 1, [], MergeStep);
        return Raises;
      }
      allTfvars := Update(allTfvars, data.value);
    }
    assert files[..|files|] == files;
    r := Ok(CompactRender.DictToHcl(allTfvars));
  }

  // ---------------------------------------------------------------------------
  // Properties

  /** Rows that are not kept play no part: the sheet gives what its kept rows
      alone give. */
  lemma OnlyKeptRowsCount(data: Entries, sheet: Sheet)
    requires HasRequiredColumns(sheet.columns)
    ensures SheetStep(data, sheet) == Fold(Filter(sheet.rows, Kept), data, TfvarsRow)
  {
    FoldSkips(sheet.rows, data, TfvarsRow, Kept);
  }

  /** The walk stores only dicts and the value itself, so it makes no list. */
  lemma {:induction false} WalkMakesNoList(n: Node, ks: seq<Key>, v: Node)
    requires ks != [] && DetachedBuilder.ListFree(n) && DetachedBuilder.ListFree(v)
    requires KeyWalk.WalkKeys(n, ks, v).Ok?
    ensures DetachedBuilder.ListFree(KeyWalk.WalkKeys(n, ks, v).value)
    decreases |ks|
  {
    if |ks| == 1 {
      PutMembers(n.entries, ks[0], v);
    } else {
      var (es, c) := Setdefault(n.entries, ks[0], EmptyMap);
      PutMembers(n.entries, ks[0], EmptyMap);
      assert Lookup(n.entries, ks[0]).Some? ==> n.entries[Find(n.entries, ks[0])] in n.entries;
      WalkMakesNoList(c, ks[1..], v);
      PutMembers(es, ks[0], KeyWalk.WalkKeys(c, ks[1..], v).value);
    }
  }

  /** Every resource of the data is without lists. */
  predicate NoLists(data: Entries) {
    forall e :: e in data ==> DetachedBuilder.ListFree(e.1)
  }

  /** A row keeps the data free of lists: a cell's value is never a list. */
  lemma RowNoLists(data: Entries, r: Row)
    requires NoLists(data) && TfvarsRow(data, r).Ok?
    ensures NoLists(TfvarsRow(data, r).value)
  {
    if Kept(r) {
      var keys := ArgumentParts(r.arguments).value;
      var ks := [ResourceKey(r.resource)] + KeyWalk.IntKeys(keys);
      WalkMakesNoList(Map(data), ks, CellNode(r.value, Pandas));
    }
  }

  lemma {:induction false} FileNoLists(sheets: seq<Sheet>)
    requires ProcessFile(sheets).Ok?
    ensures NoLists(ProcessFile(sheets).value)
  {
    forall a, x | NoLists(a) && TfvarsRow(a, x).Ok? ensures NoLists(TfvarsRow(a, x).value) {
      RowNoLists(a, x);
    }
    forall a, s | NoLists(a) && SheetStep(a, s).Ok? ensures NoLists(SheetStep(a, s).value) {
      if HasRequiredColumns(s.columns) {
        FoldKeeps(s.rows, a, TfvarsRow, NoLists);
      }
    }
    FoldKeeps(sheets, [], SheetStep, NoLists);
  }

  /** 2.py never writes a list either: an index in a path is an int key of a
      dict (`tags.0` writes `tags = {0 = ...}`). */
  lemma OutputHasNoLists(files: seq<seq<Sheet>>)
    requires Collect(files).Ok?
    ensures NoLists(Collect(files).value)
  {
    forall a, f | NoLists(a) && MergeStep(a, f).Ok? ensures NoLists(MergeStep(a, f).value) {
      FileNoLists(f);
    }
    FoldKeeps(files, [], MergeStep, NoLists);
  }

  /** The dict of one workbook never holds a key twice. */
  lemma FileUniqueKeys(sheets: seq<Sheet>)
    requires ProcessFile(sheets).Ok?
    ensures UniqueKeys(ProcessFile(sheets).value)
  {
    forall a, s | UniqueKeys(a) && SheetStep(a, s).Ok? ensures UniqueKeys(SheetStep(a, s).value) {
      if HasRequiredColumns(s.columns) {
        FoldKeeps(s.rows, a, TfvarsRow, a => UniqueKeys(a));
      }
    }
    FoldKeeps(sheets, [], SheetStep, a => UniqueKeys(a));
  }

  /** A resource of a later workbook replaces the same resource of earlier
      ones wholesale: `update` does not merge the arguments. */
  lemma LaterFileWins(files: seq<seq<Sheet>>, f: seq<Sheet>, k: Key)
    requires Collect(files + [f]).Ok?
    ensures Collect(files).Ok? && ProcessFile(f).Ok?
    ensures Lookup(Collect(files + [f]).value, k) ==
      if Has(ProcessFile(f).value, k) then Lookup(ProcessFile(f).value, k) else Lookup(Collect(files).value, k)
  {
    assert (files + [f])[..|files|] == files;
    FileUniqueKeys(f);
    UpdateLookup(Collect(files).value, ProcessFile(f).value, k);
  }

  /** Unlike 5.py, 2.py writes the file even with no data: then it is empty. */
  lemma EmptyWhenNoData(files: seq<seq<Sheet>>)
    requires Collect(files).Ok?
    ensures Written(files).value == "" <==> Collect(files).value == []
  {
    CompactRender.EmptyOutput(Collect(files).value);
  }
}
