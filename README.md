# Spreadsheet-to-tfvars converters, modelled in Dafny

The repository holds eight Python scripts that share one job. Each reads
Excel workbooks in which every row is one configuration attribute: a
resource name, a dotted argument path such as `root_block_device[0].size`
or `tags.Name`, a value, and a generation flag. From these rows the script
builds a nested tree of dicts and lists. It then writes that tree as
Terraform variable text.

This project models the core of all eight scripts:

- how a cell becomes a typed value (`parse_value` and the `int()`/`float()` coercions);
- how a dotted path is cut into pieces and matched;
- how each script's builder writes a value into the tree at a path;
- which rows reach the builder, and under which keys;
- how the tree is rendered as text.

There are five builders:

| builder | scripts | behaviour |
|---|---|---|
| overwriting | main4.py, main7.py | replaces a child of the wrong kind |
| setdefault | main8.py, main11.py | keeps every existing child, whatever its kind |
| resetting | 6.py | replaces the whole resource by a new list when a digit piece meets a non-list |
| detached | 5.py | a digit piece on a non-list builds a new list that nothing stores |
| plain key walk | main.py, 2.py | dicts only; 2.py turns digit pieces into int keys |

There are three renderers:

| renderer | scripts |
|---|---|
| recursive HCL writer | main4.py, main7.py, main8.py, main11.py (main11.py escapes `${`) |
| fixed-depth writer | 6.py, main.py |
| one-expression writer | 5.py, 2.py |

## How the model is organised

Values, dicts and lists are Dafny datatypes:

- `Tree.Node` is a dict (an insertion-ordered sequence of key/node pairs), a list, a scalar or `None`;
- `PyValues.Value` holds booleans, unbounded ints, floats (kept as their printed text) and strings.

A Python exception that escapes to the top of a script is `Raises` in a `Result`.

The Python builders move a cursor (`current`) into nested containers and mutate through it. Each builder is modelled twice:

1. A recursive specification function (`Walk`, `WalkKeys`, `Run`).
2. A method with the script's own loop over the path pieces. The method keeps the tree and the cursor's address. A write through the cursor replaces the subtree at that address (`Address.Plug`). The method is proved equal to the specification.

The row, sheet and file loops are methods too. Each is proved equal to a fold (`Folds.Fold`) over the rows, sheets or files, and the lemmas state the scripts' promises about those folds:

- the value written can be read back;
- the last write wins;
- only flagged rows count;
- a later workbook replaces an earlier one's resources;
- exactly when the output step raises.

Notes on the code:

- **Bare digit pieces.** A piece of digits (`disks.0.size`) is read by main4.py, main7.py, main8.py and main11.py as a dict key `"0"`, not as an index. Only the `name[j]` form is an index there.
- **Non-conforming children.** main8.py and main11.py keep a child of the wrong kind instead of replacing it. This makes a later write raise or land somewhere else (see `SetdefaultBuilder.KeepsExistingChild`).
- **List holes.** A hole in a list is `None`. It renders as the quoted string `"None"`, not as `{}`, and main11.py raises on it (see `HclRender.EntryRaises`).
- **Number rendering.** Floats and ints alike are rendered unquoted with Python's `str()`.
- **Missing columns.** A row read with `row.get(column)` from a sheet without that column gives `None`: main4.py files such a row under the resource `None` and writes its value `None` under the path `None`, and a missing `gen-tfvars-flag` column flags no row. The group test in front of the row loop indexes the column directly (`group["gen-tfvars-flag"]` in main7.py, `group["arguments"]` in main8.py and main11.py), so there a missing column raises `KeyError` as soon as a resource is met (`ApplyLoops.MissingGroupColumnRaises`).
- **Holes depend on arrival order.** A final `k[j]` pads a new list with `None`, an inner `k[i]` pads it with `{}`. So when both meet a list that is not there yet, its first slot ends up `None` or `{}` depending on which row comes first (`OverwriteBuilder.MixedArrivalHoles`). Two final writes into different slots commute (`OverwriteBuilder.SlotWritesCommute`).

## Model

| member | source | states |
|---|---|---|
| PyValues.Split | main7.py:37 | `str.split(sep)` gives at least one piece, and no piece contains the separator |
| PyValues.SplitJoin | main7.py:37 | joining the pieces with the separator gives back the original text, so splitting loses nothing |
| PyValues.NatToDecimal | main7.py:80 | `str(n)` is a digit string that reads back as `n` |
| PyValues.IntLiteralOfDecimal | main7.py:20-21 | `int()` reads back every int that `str()` prints, negative ones included |
| Tree.Put | main7.py:54 | `d[k] = v`: `k` then holds `v`, every other key keeps its value, an existing key keeps its position and a new key goes last |
| Tree.PutUnique | main7.py:54 | assigning a key keeps the keys of a dict unique |
| Tree.PutPut | main7.py:54 | assigning a key twice leaves only the second value |
| Tree.Setdefault | main8.py:48-49 | `d.setdefault(k, x)` returns what `k` holds afterwards; an existing key is left alone, and a missing one is set to `x` |
| Tree.Update | 5.py:108 | `a.update(b)` keeps the keys unique, and every entry of the result comes from `a` or `b` |
| Tree.UpdateLookup | 5.py:108 | after `a.update(b)`, a key of `b` holds `b`'s value and any other key holds `a`'s value |
| Tree.Padded | main7.py:50-51 | padding keeps the old items as a prefix, reaches at least length `n`, and fills only with the filler |
| Tree.PadList | main7.py:50-51 | the `while len(xs) <= idx: append(filler)` loop produces exactly `Padded` |
| Folds.Fold | 5.py:103-108 | the loop applying a step to each element in turn, stopping at the first exception; a step that never changes its accumulator leaves the initial value |
| Folds.Filter | 5.py:71 | an element is kept iff it is in the input and the test accepts it |
| Folds.FilterAppend | 5.py:71 | filtering a concatenation is filtering each part, in order; with `FilterOne` this fixes the order and the number of copies of every kept row |
| Folds.FilterOne | 5.py:71 | a single row is kept iff the test accepts it |
| Folds.Ensure | 6.py:11-12 | `if name not in cs: cs[name] = []` adds `name` last when it is new, and changes no list |
| Folds.Extend | 6.py:61 | appending to `cs[name]` adds the items at the end of that list, leaves every other list alone, and keeps the names in order |
| Folds.ExtendTwice | 6.py:61 | appending one run and then another is the same as appending both at once |
| Coerce.ParseText | main7.py:9-28 | `parse_value` on text gives `True` iff the stripped text lower-cased is `true`, `False` iff it is `false`, an int iff it is otherwise an int literal, a float only for a float literal, and otherwise the stripped text |
| Coerce.ParseValue | main7.py:9-28 | a non-text value is returned unchanged and a scalar stays a scalar; text that stays text comes back stripped |
| Coerce.ParseValueIdempotent | main7.py:9-28 | parsing an already parsed value changes nothing |
| Coerce.ParsesPrintedInt | main7.py:20-21 | the text `str()` prints for any int parses back to that int |
| Coerce.ParsesPrintedBool | main7.py:16-19 | every text that spells a bool in any case (`true`, `True`, `TRUE`) parses to that bool, so HCL's and Python's spellings both read back |
| Coerce.CoerceNumber | 6.py:24-30 | `int(value)`, else `float(value)`, else the value itself: int text becomes the int, float text becomes a float, other text is kept unstripped, a bool becomes 0 or 1, and a float in plain decimal notation is truncated |
| Coerce.TruncatesToWholePart | 6.py:25 | `int()` of the float printed `i.fraction` is `i`, so it truncates toward zero on both sides of zero |
| Coerce.FloatCellTruncated | 6.py:24-28 | a float cell `i.fraction` is stored as the int `i`, while the same text in a text cell stays a float |
| Coerce.CoercersAgreeOnNumbers | main.py:22-28 | on numeric text other than `true`/`false`, `parse_value` and the `int`/`float` coercion give the same value |
| Coerce.CoerceDigits | 5.py:77-78 | the value changes iff it is a string of ASCII digits, and then it becomes that number |
| Coerce.DigitsAreNumbers | 5.py:77-78 | every value 5.py turns into an int, 6.py and main.py turn into the same int |
| PathToken.WordRun | main7.py:40 | the length of the leading run of word characters: each character before it is a word character, and the next one is not |
| PathToken.MatchToken | main7.py:40-44 | a piece matches iff it starts with a word character; the key is the longest leading run of word characters |
| PathToken.BracketIndexOf | main7.py:40 | `[j]` after the key reads as the index `j` |
| PathToken.TokenRoundTrip | main7.py:40-44 | writing a token as `name` or `name[j]` and matching it gives the same token back |
| PathToken.FirstToken | main7.py:39-44 | a first matching piece exists iff some piece of the path matches |
| Sheets.CellNode | main7.py:207 | a full cell gives its value; an empty cell gives `None` through openpyxl and NaN through pandas |
| Sheets.CellStr | main7.py:195 | `str()` of a cell: the value's text, or `None`/`nan` for an empty cell depending on the reader |
| Sheets.ResourceCells | main7.py:194 | `dropna().unique()`: every cell listed is a non-empty resource cell of some row, and every such cell is listed |
| Sheets.ResourceCellsUnique | main7.py:194 | `unique()` lists no cell twice |
| Sheets.Group | main7.py:196 | the rows whose stripped resource text equals the name, and only those |
| Sheets.ResourceCellNames | main7.py:194-196 | a name is produced by some unique resource cell iff some non-empty row carries it |
| Sheets.ArgumentParts | 6.py:33 | `argument.split('.')` succeeds iff the cell holds text, and the pieces join back to it |
| Sheets.Flagged | main7.py:203-205 | a row passes the text flag test only when the sheet has the `gen-tfvars-flag` column and the row's flag cell is not empty (`None` and `nan` fail) |
| Sheets.EqualsTrue | 5.py:71 | a cell equal to `True` is never text |
| Sheets.Kept | 5.py:71-72 | the rows 5.py and 2.py keep are those equal to `True` with a resource |
| Sheets.FlagTests | 5.py:71 | over all cells: both flag tests pass exactly for the bool `True`; only `== True` passes for `1` and `1.0`; only the text test passes for text or a float whose text reads `true` |
| Sheets.ResourceKey | 6.py:19 | an int cell gives an int key and every other cell is filed under its text |
| Sheets.NumberValue | 6.py:21-30 | the coerced value is a scalar; an empty cell stays NaN and an int cell stays that int |
| Sheets.ReadsRows | 6.py:18-21 | a sheet without rows never reads a column; a sheet with rows needs the `resource`, `arguments` and `value` columns |
| OverwriteBuilder.WriteLast | main7.py:45-54 | the last piece: other keys are untouched and key order is kept. A plain key gets the value. An indexed key gets a list (the old one, or a new one in place of a non-list), padded with `None` to length `j + 1`, with the value at `j` and all other slots unchanged |
| OverwriteBuilder.Prepare | main7.py:55-68 | an inner piece: the child becomes a dict (kept when it already is one) or a list padded with `{}` whose slot `j` becomes `{}` when it was `None`; the cursor moves to that child or slot, and nothing else changes |
| OverwriteBuilder.Walk | main7.py:37-68 | on a cursor that is not a dict, the walk raises iff some remaining piece matches; on a dict, a successful walk yields a dict |
| OverwriteBuilder.AssignLast | main7.py:45-54 | the method assigning the last piece computes exactly `WriteLast` |
| OverwriteBuilder.PrepareChild | main7.py:55-68 | the method entering an inner piece computes exactly `Prepare` and the cursor's new address |
| OverwriteBuilder.SetPiece | main7.py:37-68 | one pass of the loop: a piece that does not match is skipped, a non-dict cursor raises, and otherwise the walk still to come from the new cursor ends where the walk from the old one would |
| OverwriteBuilder.SetNestedValue | main7.py:32-68 | `set_nested_value`'s loop over the pieces, moving the cursor, gives exactly `Walk` over `key_str.split(".")` |
| OverwriteBuilder.WriteLastAt | main7.py:45-54 | after writing the last piece, the value sits at `name` or at slot `j` of `name` |
| OverwriteBuilder.RoundTrip | main7.py:32-68 | when the path's last piece matches and the write succeeds, the value sits at the address the matched pieces name |
| OverwriteBuilder.WriteLastTwice | main7.py:45-54 | writing the same last piece twice leaves only the second value |
| OverwriteBuilder.PrepareAgain | main7.py:55-68 | entering the same piece again, once the child is in place, changes nothing and reaches the same place |
| OverwriteBuilder.LastWriteWins | main7.py:32-68 | writing a path twice is the same as writing only the second value |
| OverwriteBuilder.WalkFrame | main7.py:32-68 | only the first matched key of the dict changes: a new one goes last, and every other key keeps its value; with no matched piece the dict is unchanged |
| OverwriteBuilder.SkippedLastWritesNothing | main7.py:41-42 | when the last piece does not match, the value is never written, so the result does not depend on it |
| OverwriteBuilder.ScalarSlotBlocks | main7.py:62-64 | a list slot that holds a scalar stops any longer path with an exception |
| OverwriteBuilder.SlotWritesCommute | main7.py:45-54 | two final writes into different slots of one list leave the same tree in either order |
| OverwriteBuilder.PaddedSetsCommute | main7.py:50-54 | on the items of the list, padding with `None` and setting two different slots commute |
| OverwriteBuilder.MixedArrivalHoles | main7.py:45-68 | a final `k[j]` and an inner `k[i]` (`i < j`) on a missing list: final first leaves slot 0 `None`, inner first leaves it `{}` |
| SetdefaultBuilder.WriteLast | main8.py:30-38 | the last piece: a plain key gets the value. An indexed key raises iff the child exists and is neither a list nor a dict longer than `j`. A list (or a missing child) is padded with `None` and gets the value at `j`. A long enough dict gets the int key `j` |
| SetdefaultBuilder.Prepare | main8.py:39-50 | an inner piece: a plain key is created as `{}` only when absent. An indexed key raises exactly in the cases Python raises (a dict without the int key `j`, a string shorter than `j`, any other scalar, `None`), and a dict child is kept as a dict |
| SetdefaultBuilder.Walk | main8.py:23-50 | on a cursor that is not a dict, the walk raises iff some remaining piece matches; on a dict, a successful walk yields a dict |
| SetdefaultBuilder.AssignLast | main8.py:30-38 | the method assigning the last piece computes exactly `WriteLast` |
| SetdefaultBuilder.PrepareChild | main8.py:39-50 | the method entering an inner piece computes exactly `Prepare` |
| SetdefaultBuilder.WalkSkips | main8.py:27-28 | a piece that does not match is skipped |
| SetdefaultBuilder.WalkWritesLast | main8.py:30-38 | a one-piece path is exactly the last-piece write |
| SetdefaultBuilder.WalkDescends | main8.py:39-50 | a longer path enters the first piece and writes the rest inside the child |
| SetdefaultBuilder.SetPiece | main8.py:27-50 | one pass of the loop: a piece that does not match is skipped, a non-dict cursor raises, and otherwise the walk still to come from the new cursor ends where the walk from the old one would |
| SetdefaultBuilder.SetNestedValue | main8.py:23-50 | `set_nested_value`'s loop gives exactly `Walk` over `key_str.split(".")` |
| SetdefaultBuilder.PrepareAgrees | main8.py:39-50 | where the child is absent or already of the right kind, main8.py enters it exactly as main7.py does |
| SetdefaultBuilder.WriteLastAgrees | main8.py:30-38 | where the child is absent or a list (or the key is plain), main8.py's last write is main7.py's |
| SetdefaultBuilder.AgreesWithOverwrite | main8.py:23-50 | on a tree whose children along the path have the kinds the path asks for, main8.py and main7.py build the same tree |
| SetdefaultBuilder.OverwriteConforms | main7.py:32-68 | the tree main7.py builds has the kinds the path asks for, so main8.py agrees with it when the path is written again |
| SetdefaultBuilder.RoundTrip | main8.py:23-50 | on a conforming tree, after a successful write the value sits at the path's address |
| SetdefaultBuilder.WriteLastTwice | main8.py:30-38 | writing the same last piece twice, when the first write succeeds, leaves only the second value |
| SetdefaultBuilder.PrepareAgain | main8.py:39-50 | entering the same inner piece again, once the first entry succeeded, changes nothing and reaches the same place |
| SetdefaultBuilder.LastWriteWins | main8.py:23-50 | on any tree, once a path has been written, writing it again is writing only the second value |
| SetdefaultBuilder.SlotWritesCommute | main8.py:30-38 | on a missing or list child, two final writes into different slots succeed and leave the same tree in either order |
| SetdefaultBuilder.MixedArrivalHoles | main8.py:30-50 | as in main7.py, a final `k[j]` and an inner `k[i]` on a missing list leave slot 0 `None` or `{}` depending on which comes first |
| SetdefaultBuilder.KeepsExistingChild | main8.py:42-49 | an existing child keeps its kind (dict stays dict, list stays list), and a scalar or `None` child is left exactly as it was |
| SetdefaultBuilder.ScalarChildBlocks | main8.py:48-50 | a plain key holding a scalar stops any longer path with an exception |
| KeyWalk.WalkKeys | main.py:30-36 | the walk succeeds only from a dict and yields a dict that holds the first key, with every other key unchanged |
| KeyWalk.IntKey | 2.py:55-61 | a piece becomes an int key iff it is a digit string, and then the key is the number the digits denote; any other piece stays the string itself |
| KeyWalk.SetPath | main.py:31-36 | the loop `for key in keys[:-1]: ...; current[keys[-1]] = value` gives exactly `WalkKeys` |
| KeyWalk.FreshWalk | main.py:33-35 | a walk through freshly created dicts never raises |
| KeyWalk.WalkKeysRaises | main.py:33-36 | the walk raises iff some existing node on the path is not a dict |
| KeyWalk.RoundTrip | main.py:30-36 | after a successful walk the value sits at the address the keys name |
| KeyWalk.LastWriteWins | main.py:30-36 | writing the same keys twice is the same as writing only the second value |
| KeyWalk.LeadingZerosShareKey | 2.py:55-61 | two pieces name the same key iff they are the same text or digit strings of the same number; a leading zero never makes a new key |
| DetachedBuilder.EnsuredList | 5.py:50-58 | `ensure_list`: a list keeps its items and is padded with `{}` to at least `j + 1` items; anything else gives a new list of `j + 1` empty dicts |
| DetachedBuilder.EnsureList | 5.py:50-58 | the method with the padding loop computes exactly `EnsuredList` |
| DetachedBuilder.DetachedWalkOk | 5.py:29-48 | writing any path into an empty dict never raises |
| DetachedBuilder.EnterStep | 5.py:33-39 | one inner piece either moves the cursor into the tree, moves it onto a detached list (after which the tree no longer changes), or raises |
| DetachedBuilder.EnterPiece | 5.py:33-39 | the method for one inner piece computes exactly `Enter` |
| DetachedBuilder.AssignPiece | 5.py:41-48 | the method for the last piece computes exactly the one-piece walk |
| DetachedBuilder.HandleNestedKeys | 5.py:29-48 | `handle_nested_keys`' loop gives exactly `Walk` |
| DetachedBuilder.Build | 5.py:73-79 | the resource's entry exists afterwards, and every other resource is untouched |
| DetachedBuilder.DigitOnNonListIsLost | 5.py:54-55 | a digit piece met at a non-list leaves the tree exactly as it was |
| DetachedBuilder.AgreesWithKeyWalk | 5.py:33-48 | on a path without digit pieces, 5.py's builder is main.py's plain key walk |
| DetachedBuilder.NeverMakesList | 5.py:29-58 | a tree without lists stays without lists, whatever path is written |
| DetachedBuilder.IndexedValueIsLost | 5.py:33-58 | for any path `name.<digits>...` whose `name` holds no list, the resource ends as `setdefault(name, {})` left it: the value is lost |
| ResetBuilder.FreshList | 6.py:38-43 | the new list for index `j` holds `j + 1` empty dicts |
| ResetBuilder.Enter | 6.py:35-47 | an inner key piece raises iff the cursor is not a dict; a digit piece at a non-list replaces the resource by a new list and moves to slot `j` |
| ResetBuilder.Assign | 6.py:49-59 | the last piece raises iff it is a key and the cursor is not a dict; a digit piece at a non-list makes the resource a new list holding the value at `j` |
| ResetBuilder.Build | 6.py:33-59 | the resource's entry exists afterwards, and every other resource is untouched |
| ResetBuilder.EnterPiece | 6.py:35-47 | the method for one inner piece computes exactly `Enter` |
| ResetBuilder.AssignPiece | 6.py:49-59 | the method for the last piece computes exactly `Assign` |
| ResetBuilder.ApplyRow | 6.py:33-59 | the row's loop over the pieces gives exactly `Build` |
| ResetBuilder.AgreesWithKeyWalk | 6.py:35-59 | on a path without digit pieces, the resetting walk is main.py's plain key walk |
| ResetBuilder.BuildAgreesWithKeyWalk | 6.py:33-59 | on such a path, 6.py's row builder and main.py's give the same sheet data |
| ResetBuilder.DigitFirstMakesList | 6.py:36-40 | a path starting with a digit makes the resource a list |
| ResetBuilder.ListStaysList | 6.py:36-59 | a resource that is a list stays a list, whatever is written into it |
| ResetBuilder.DigitFirstForgets | 6.py:38-40 | with a digit first piece, the resource's old contents (when not a list) do not affect the result |
| HclRender.Indent | main7.py:91 | two spaces per level |
| HclRender.Escape | main11.py:58 | escaping never shortens the text and leaves text without `${` as it is |
| HclRender.EscapeReadsBack | main11.py:58 | for text without `"`, backslash or `%{`, HCL's template reading of the escaped text gives back the original, so `$${` reads as a literal `${` |
| HclRender.EscapeKeeps | main11.py:58 | escaping keeps every character of the text |
| HclRender.QuoteOrBackslashEscapedNotRead | main11.py:58-59 | a text holding `"` or a backslash does not read back after escaping: main11.py escapes neither |
| HclRender.DirectiveNotEscaped | main11.py:58-59 | a text starting `%{` is read as a template directive, escaped or not: main11.py leaves `%{` alone |
| HclRender.UnescapedInterpolates | main11.py:58 | unescaped text starting with `${` is not literal text in HCL, while its escaped form, for plain text, reads back as itself |
| HclRender.FormatPrimitive | main7.py:72-82 | booleans render as `true`/`false`, ints and floats unquoted as `str()` prints them, strings in quotes (escaped in main11.py), `None` as `"None"`; it raises iff main11.py escapes `None` |
| HclRender.StringReadsBack | main7.py:82 | a rendered string unquotes to itself (main11.py: to its escaped form); that form reads back as the text for plain text, and never for text holding `"` or a backslash |
| HclRender.ItemLines | main7.py:113-121 | every list element's rendering ends in a comma |
| HclRender.EntryLines | main7.py:93-100 | an entry renders as at least one line, and the first starts with the indent, the key and ` = ` |
| HclRender.DictLines | main7.py:92-101 | each entry of a dict gives at least one line |
| HclRender.DictText | main7.py:86-101 | an empty dict renders as the empty text |
| HclRender.ListLines | main7.py:113-121 | each list element gives at least one line |
| HclRender.ListText | main7.py:105-123 | a rendered list opens with `[` and closes with `]` |
| HclRender.DictLinesAppend | main7.py:92-101 | entries render in insertion order: rendering `a + b` is rendering `a` and then `b` |
| HclRender.PutRendersInPlace | main7.py:92 | overwriting a key re-renders its entry in the same position; a new key renders last |
| HclRender.EntryRaises | main11.py:62-72 | an entry fails to render iff escaping is on and its value holds `None` somewhere |
| HclRender.DictRaises | main11.py:62-74 | a dict fails to render iff escaping is on and some value in it holds `None` |
| HclRender.ItemRaises | main11.py:77-89 | a list element fails to render iff escaping is on and it holds `None` |
| HclRender.ListRaises | main11.py:77-91 | a list fails to render iff escaping is on and some element holds `None` |
| CompactRender.FormatValue | 5.py:12-24 | a dict renders between braces, a list between brackets, and a string verbatim between double quotes, with nothing escaped |
| CompactRender.EntryText | 5.py:20 | `key = text`: the key first, the value's text last |
| CompactRender.DictToHcl | 5.py:10-27 | no data gives the empty text, and a single resource gives exactly its entry |
| CompactRender.ScalarsAgainstMainRenderer | 5.py:12-24 | strings and numbers render as in main7.py; booleans come out as Python's `True`/`False` and `None` bare, which is where the two disagree |
| CompactRender.EmptyOutput | 5.py:26-27 | the text is empty iff the dict is empty |
| CompactRender.DictToHclAppend | 5.py:26 | entries render in dict order, joined by `,\n` |
| FixedRender.PyRepr | 6.py:78 | `repr` of a nested value: a dict between braces, a list between brackets, a string between single quotes |
| FixedRender.PyStr | 6.py:86 | `str()` differs from `repr` exactly on strings, which it gives bare |
| FixedRender.ArgumentLines | 6.py:74-86 | a dict argument gives one line per sub-key plus its two braces, a list (6.py only) one line per item plus its two brackets, anything else one line; the first line starts with the key |
| FixedRender.Content6 | 6.py:65-90 | no workbooks give the empty text |
| FixedRender.ContentMain | main.py:41-60 | no collections give the empty text |
| FixedRender.SubBlock | 6.py:77-78 | one quoted line per sub-key |
| FixedRender.ItemBlock | 6.py:82-83 | one line per list item, ending in a comma |
| FixedRender.ArgumentBlock | 6.py:74-86 | a dict argument gives a block, a list gives a bracketed block (6.py only), and anything else a quoted line |
| FixedRender.ArgumentsBlock | 6.py:74-86 | the loop over a resource's arguments gives the arguments' lines in order |
| FixedRender.ResourceBlock6 | 6.py:72-87 | a resource's block, which raises when its arguments are not a dict |
| FixedRender.SheetBlock6 | 6.py:70-88 | a sheet's block of resources |
| FixedRender.WorkbookBlock6 | 6.py:67-89 | a workbook's list of sheet blocks |
| FixedRender.GenerateContent6 | 6.py:65-90 | `generate_tfvars_content` of 6.py, lines joined by newlines |
| FixedRender.ResourceBlockMain | main.py:46-58 | a resource's block in main.py |
| FixedRender.ResourceDataBlock | main.py:45-58 | the blocks of one sheet's resources |
| FixedRender.CollectionBlockMain | main.py:43-59 | a `<sheet>_list` collection |
| FixedRender.GenerateContentMain | main.py:41-60 | `generate_tfvars_content` of main.py |
| FixedRender.ResourceRaises | 6.py:74 | a resource block raises iff the resource's value is not a dict |
| FixedRender.Content6Raises | 6.py:65-90 | 6.py's output step raises iff some resource of some sheet is not a dict |
| FixedRender.ContentMainRaises | main.py:41-60 | main.py's output step raises iff some resource is not a dict |
| FixedRender.LeavesAreStrings | 6.py:86 | every leaf is put in quotes as `str()` prints it, so a number is written as a quoted string |
| ApplyLoops.Touch | main7.py:198-199 | creating the resource entry fails exactly when the sheet's entry is not a dict |
| ApplyLoops.TouchKeys | main7.py:198-199 | the resource entry is created under the sheet's key; no other key is added or removed |
| ApplyLoops.Place | main7.py:209 | the resource's new tree is stored under the sheet's key, and nothing else changes |
| ApplyLoops.Apply | main7.py:202-209 | a row that goes through found the sheet's entry a dict and leaves it a dict |
| ApplyLoops.Selected | main8.py:171-177 | a selected row has a non-empty flag cell in a `gen-tfvars-flag` column, and in main8.py and main11.py a `policy` row is never selected |
| ApplyLoops.Step4 | main4.py:161-175 | an unflagged row changes nothing; a flagged row that goes through found `<sheet>_list` a dict and leaves it one |
| ApplyLoops.Rows4 | main4.py:161-175 | when no row is flagged the data is unchanged |
| ApplyLoops.OneResource | main7.py:194-209 | a resource raises when the group's column is missing (`KeyError`) or `<sheet>_list` is not a dict |
| ApplyLoops.Resources | main7.py:194-209 | no resource cells change nothing; any resource cell on a sheet without the group's column raises |
| ApplyLoops.SheetData | main8.py:135-147 | main8.py and main11.py skip an empty sheet or one without `resource-name`; main7.py still makes `<sheet>_list` for a sheet without it |
| ApplyLoops.Convert | main7.py:177-209 | no sheets change nothing, and a sheet that raises ends the conversion |
| ApplyLoops.ConvertAppend | main7.py:177-209 | sheets are converted one after the other: two runs of sheets are the first run and then the second from its result |
| ApplyLoops.Output | main11.py:197-199 | the output raises when conversion raises, and empty data gives the empty text |
| ApplyLoops.ApplyKeys | main7.py:202-209 | one row changes only the sheet's entry, and only its resource's key is added |
| ApplyLoops.Row4 | main4.py:161-175 | the method for one main4.py row computes exactly `Step4`: a flagged row is applied under its own resource name (`None` when the sheet has no `resource-name` column), any other row is passed over |
| ApplyLoops.OneResourceKeys | main7.py:194-209 | processing one resource adds exactly that resource's name to the sheet's entry |
| ApplyLoops.SetNested | main7.py:209 | each script's `set_nested_value`: the overwriting builder for main4.py and main7.py, the setdefault one for main8.py and main11.py |
| ApplyLoops.ApplyRow | main7.py:203-209 | the method for one row computes exactly `Apply` |
| ApplyLoops.ProcessRows4 | main4.py:161-175 | main4.py's row loop gives exactly the fold of `Step4` |
| ApplyLoops.GroupRow | main7.py:202-209 | the method for one row of a group computes exactly `GroupStep`: a selected row is applied, any other row is passed over |
| ApplyLoops.ProcessGroup | main7.py:202-209 | the loop over a resource's rows gives exactly the fold over that group |
| ApplyLoops.ProcessResource | main7.py:194-209 | the method for one resource computes exactly `OneResource`, including the `KeyError` when the group's column is missing |
| ApplyLoops.ProcessResources | main7.py:194-209 | the loop over the unique resource names gives exactly their fold |
| ApplyLoops.ProcessSheet | main7.py:184-209 | the method for one sheet computes exactly its sheet data |
| ApplyLoops.ConvertSheets | main7.py:177-209 | the loop over all sheets gives exactly their fold |
| ApplyLoops.SelectedRows | main8.py:171-177 | the rows reaching the builder are exactly the flagged ones (and, in main8.py and main11.py, not `policy`) |
| ApplyLoops.OnlySelectedRowsApply | main8.py:171-179 | unselected rows have no effect: processing a group is processing its selected rows |
| ApplyLoops.NothingSelectedNothingChanges | main7.py:201-205 | a group without selected rows changes nothing |
| ApplyLoops.AnyTestChangesNothing | main7.py:201 | without a `gen-tfvars-flag` column the `.any()` test raises; with it, the test does not change the result |
| ApplyLoops.GroupRowsKeys | main7.py:198-209 | after a group, the sheet's keys are the old ones plus the resource iff some row was selected |
| ApplyLoops.Rows4Keys | main4.py:161-175 | after main4.py's loop, the sheet's keys are the old ones plus exactly the resources of flagged rows |
| ApplyLoops.ResourcesKeys | main7.py:194-199 | after the resource loop, the sheet's keys are the old ones plus exactly the unique resource names |
| ApplyLoops.Main4SheetResources | main4.py:153-175 | in main4.py a sheet's resources are exactly those of its flagged rows |
| ApplyLoops.SheetDataGrouped | main8.py:135-147 | a main7.py, main8.py or main11.py sheet starts from an empty dict and processes each unique resource |
| ApplyLoops.ResourcesFromNothing | main8.py:144-147 | from an empty `<sheet>_list` dict, the resource loop files exactly the names of the rows' non-empty resource cells |
| ApplyLoops.GroupedSheetResources | main8.py:144-147 | in those scripts a sheet's resources are exactly the names of its non-empty resource cells, flagged or not |
| ApplyLoops.Main4WithoutResourceColumn | main4.py:166 | in main4.py, on a sheet without `resource-name`, every flagged row is filed under the resource `None` |
| ApplyLoops.Main4WithoutFlagColumn | main4.py:162-164 | in main4.py a sheet without `gen-tfvars-flag` only makes `<sheet>_list` |
| ApplyLoops.NoFlagRows4 | main4.py:162-164 | without the flag column no main4.py row changes anything |
| ApplyLoops.MissingGroupColumnRaises | main8.py:151 | in main7.py, main8.py and main11.py a sheet with a resource but without the group's column raises |
| ApplyLoops.OutputRaises | main11.py:199 | the output raises iff conversion raises or, in main11.py, the tree holds `None` |
| WorkbookLoader.LoadSheet | 6.py:17-59 | the row loop of one sheet gives exactly the fold of the resetting builder |
| WorkbookLoader.SheetRow | 6.py:19-59 | a row that goes through had a text `arguments` cell, holds its resource afterwards, and leaves every other resource as it was |
| WorkbookLoader.SheetData | 6.py:16-59 | a sheet without rows gives `{}`; a sheet with rows but without the three columns raises |
| WorkbookLoader.LoadWorkbook | 6.py:11-61 | a workbook's list gains one `{sheet: data}` item per sheet, in order |
| WorkbookLoader.LoadParameters | 6.py:5-62 | the loop over workbooks gives exactly their fold |
| WorkbookLoader.Generate | 6.py:100-101 | the text is 6.py's renderer applied to what was loaded |
| WorkbookLoader.IndexFirstRowMakesList | 6.py:33-59 | a row whose path starts with a digit leaves its resource a list in the sheet data |
| WorkbookLoader.RowMakesList | 6.py:33-59 | the row itself leaves its resource a list |
| WorkbookLoader.RowsKeepList | 6.py:33-59 | once a resource is a list, every later row keeps it a list or raises |
| WorkbookLoader.SheetsAreLoaded | 6.py:5-62 | every sheet of every workbook ends up, with its data, in some loaded list |
| WorkbookLoader.IndexFirstRowFailsRender | 6.py:36-74 | one row anywhere whose path starts with a digit makes the whole run fail: the load or the output step raises |
| WorkbookLoader.ListFailsRender | 6.py:72-74 | a loaded resource that is a list makes the output step raise |
| SheetListLoader.LoadRow | main.py:18-36 | one row's walk computes exactly `ResourceRow` |
| SheetListLoader.ResourceRow | main.py:18-36 | a row that goes through had a text `arguments` cell, holds its resource afterwards, and leaves every other resource as it was |
| SheetListLoader.LoadSheet | main.py:16-37 | the row loop of one sheet gives exactly the fold of the key walk |
| SheetListLoader.LoadWorkbook | main.py:11-38 | each sheet adds its data to `<sheet>_list`, in order |
| SheetListLoader.LoadParameters | main.py:5-39 | the loop over workbooks gives exactly their fold |
| SheetListLoader.Generate | main.py:69-70 | the text is main.py's renderer applied to what was loaded |
| SheetListLoader.RowKeepsDicts | main.py:30-36 | a row keeps every resource a dict |
| SheetListLoader.SheetKeepsDicts | main.py:16-37 | every resource of a loaded sheet is a dict |
| SheetListLoader.SheetStepKeepsDicts | main.py:13-38 | adding a sheet keeps every loaded resource a dict |
| SheetListLoader.WorkbookKeepsDicts | main.py:11-38 | adding a workbook keeps every loaded resource a dict |
| SheetListLoader.LoadedAreDicts | main.py:5-39 | every loaded resource is a dict |
| SheetListLoader.LoadedRenders | main.py:41-60 | whatever loads also renders: the output step never raises |
| DetachedTfvars.ProcessRow | 5.py:74-79 | one row's builder call computes exactly `TfvarsRow` |
| DetachedTfvars.TfvarsRow | 5.py:71-79 | a row that is not kept changes nothing; a kept row that goes through had a text `arguments` cell and holds its resource afterwards; every other resource is left as it was |
| DetachedTfvars.MergeStep | 5.py:107-108 | merging a workbook raises iff processing it raises, and brings in only entries of the old data or of the workbook |
| DetachedTfvars.Saved | 5.py:112-116 | something is saved iff the collected data is non-empty |
| DetachedTfvars.ProcessSheet | 5.py:65-79 | a sheet without the four columns is skipped; otherwise its rows are folded |
| DetachedTfvars.ProcessExcelFile | 5.py:60-82 | the loop over a workbook's sheets gives exactly their fold |
| DetachedTfvars.Run | 5.py:99-116 | `main`: the merged data, and the text saved only when there is data |
| DetachedTfvars.OnlyKeptRowsCount | 5.py:71 | a sheet's result is the fold over the rows that pass `== True` and have a resource, in order |
| DetachedTfvars.RowNoLists | 5.py:79 | a row never introduces a list |
| DetachedTfvars.FileNoLists | 5.py:60-82 | a workbook's data holds no list |
| DetachedTfvars.OutputHasNoLists | 5.py:99-110 | the merged data holds no list, so indexed paths never produce lists |
| DetachedTfvars.FileUniqueKeys | 5.py:72-73 | a workbook's data has each resource once |
| DetachedTfvars.LaterFileWins | 5.py:108 | a resource in a later workbook replaces the earlier one wholesale; other resources keep their earlier value |
| DetachedTfvars.SavedIsNeverEmpty | 5.py:112-116 | the text is saved iff there is data, and saved text is never empty |
| IntKeyTfvars.ProcessRow | 2.py:48-62 | one row's walk computes exactly `TfvarsRow` |
| IntKeyTfvars.TfvarsRow | 2.py:43-62 | a row that is not kept changes nothing; a kept row that goes through had a text `arguments` cell and holds its resource afterwards; every other resource is left as it was |
| IntKeyTfvars.MergeStep | 2.py:90-91 | merging a workbook raises iff processing it raises, and brings in only entries of the old data or of the workbook |
| IntKeyTfvars.ProcessSheet | 2.py:36-62 | a sheet without the four columns is skipped; otherwise its rows are folded |
| IntKeyTfvars.ProcessExcelFile | 2.py:30-63 | the loop over a workbook's sheets gives exactly their fold |
| IntKeyTfvars.Run | 2.py:82-94 | `main`: the merged data rendered, written even when empty |
| IntKeyTfvars.OnlyKeptRowsCount | 2.py:43 | a sheet's result is the fold over the rows that pass `== True` and have a resource, in order |
| IntKeyTfvars.WalkMakesNoList | 2.py:54-62 | the int-key walk never creates a list |
| IntKeyTfvars.RowNoLists | 2.py:48-62 | a row never introduces a list |
| IntKeyTfvars.FileNoLists | 2.py:30-63 | a workbook's data holds no list |
| IntKeyTfvars.OutputHasNoLists | 2.py:82-91 | the merged data holds no list |
| IntKeyTfvars.FileUniqueKeys | 2.py:46-47 | a workbook's data has each resource once |
| IntKeyTfvars.LaterFileWins | 2.py:91 | a resource in a later workbook replaces the earlier one wholesale |
| IntKeyTfvars.EmptyWhenNoData | 2.py:94 | the written text is empty iff there is no data |

## Left out

- **I/O.** Listing the input folder, opening workbooks, creating folders, writing files and printing are left out. A workbook is given as its name and its sheets, in the order the folder listing yields them. A sheet is given as its name, its header and its rows.
- **Sheet-name mapping.** The mapping read from `sample.csv` (main7.py:150-161, main8.py:116-122) or `sheetname_config.json` (main11.py:109-114) is left out. A sheet's name is given already mapped.
- **main11.py's `common.xlsx`.** The shared keys it loads (main11.py:119-138) become the initial data passed to the conversion, and the `RuntimeError` when `env` is missing is left out. So is the output path that depends on `env`.
- **Policy JSON files.** main8.py:149-168 and main11.py:169-182 parse `policy` rows as JSON and write them to separate files; this is left out. The model does capture that those rows never reach the tree (`ApplyLoops.SelectedRows`).
- **`terraform fmt`.** Running it, and its failure raising in 5.py and 2.py, is left out.
- **Debug prints.** The debug prints of 5.py are left out.
- **Characters.** Characters are treated as ASCII. Unicode digits for `isdigit()`, Unicode word characters for `\w`, Unicode whitespace for `strip()`, and underscores inside `int()`/`float()` literals are not modelled.
- **Floats.** A float is kept as its text. Python's normalised `repr` (`1.50` prints as `1.5`) is not modelled, and neither is float arithmetic.
- Coerce.CoerceNumber: a float whose text uses an exponent (`1e+16`) is kept as a float, though `int()` truncates it as well. Infinity is also kept, though `int()` raises `OverflowError` on it.
- **Aliasing.** The builders' mutation through an aliased cursor is modelled on values: a write replaces the subtree at the cursor's address. In 5.py, a list `ensure_list` returns and nobody stores is a value outside the tree, which matches Python, where that list is garbage.
- **Key order in 5.py and 2.py.** `groupby("resource")` sorts the resources, and the model processes rows in sheet order instead. The per-resource contents are the same, because a resource's rows keep their relative order. The order of the top-level keys, and the `TypeError` pandas raises when sorting resources of mixed types, are not modelled.
- **Pandas column typing.** A column whose ints sit beside an empty cell becomes a float column. Each cell is taken here as the value it shows.
- Sheets.ResourceKey: a resource cell holding a bool or a float is filed under its `str()` text, where Python (6.py, main.py, 5.py and 2.py) uses the value itself as the key. In 6.py and main.py, which read `row['resource']` directly (6.py:19, main.py:18), an empty cell (NaN) is likewise filed under `nan`, where Python keys on the NaN float. In 5.py and 2.py `groupby("resource")` drops empty resource cells, and so does the model (`Sheets.Kept`).
- FixedRender.PyRepr: `repr` of nested values writes strings in single quotes without escaping quotes or backslashes inside them, where Python's `repr` would switch quotes or escape them.
- SetdefaultBuilder.RoundTrip: proved only for trees whose children along the path have the kinds the path asks for. On other trees main8.py may write elsewhere or raise, as `SetdefaultBuilder.KeepsExistingChild` and `SetdefaultBuilder.ScalarChildBlocks` state.
- SetdefaultBuilder.SlotWritesCommute: stated for a missing or list child only. On a dict child long enough for both indices, main8.py adds the two int keys in the order the writes arrive, so the dict's key order differs.
- HclRender.ReadTemplate: HCL's backslash escape sequences are not decoded; a text holding a backslash or a `"` is simply not read back. So `EscapeReadsBack` is stated for text without `"`, backslash and `%{`, and `QuoteOrBackslashEscapedNotRead` and `DirectiveNotEscaped` state what happens to the rest.
