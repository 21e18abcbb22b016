/** The renderers of 6.py (`generate_tfvars_content`, lines 65-90) and main.py
    (lines 41-60). They do not recurse: they print a fixed number of levels
    (collection, resource, argument, one level of sub-arguments) and put every
    leaf in quotes as Python's `str()` shows it, so a deeper dict or a list comes
    out as its Python `repr`. A resource whose arguments are not a dict makes
    `arguments.items()` raise. */
module FixedRender {
  import opened PyValues
  import opened Tree
  import opened HclRender

  // ---------------------------------------------------------------------------
  // str() and repr() of a Python object

  /** `repr(k)` of a dict key. */
  function KeyRepr(k: Key): string {
    match k
    case S(s) => "'" + s + "'"
    case I(i) => IntToDecimal(i)
  }

  /** `repr(n)`, as `str()` of a dict or list shows its contents. */
  function PyRepr(n: Node): (r: string)
    ensures n.Map? ==> |r| >= 2 && r[0] == '{' && r[|r| - 1] == '}'
    ensures n.List? ==> |r| >= 2 && r[0] == '[' && r[|r| - 1] == ']'
    ensures n.Scalar? && n.v.Str? ==> |r| >= 2 && r[0] == '\'' && r[|r| - 1] == '\''
    decreases n
  {
    match n
    case Scalar(Str(s)) => "'" + s + "'"
    case Scalar(v) => ValueText(v)
    case Null => "None"
    case Map(es) =>
      "{" + Join(seq(|es|, i requires 0 <= i < |es| => (assert es[i] in es; KeyRepr(es[i].0) + ": " + PyRepr(es[i].1))), ", ") + "}"
    case List(xs) =>
      "[" + Join(seq(|xs|, i requires 0 <= i < |xs| => (assert xs[i] in xs; PyRepr(xs[i]))), ", ") + "]"
  }

  /** `str(n)`, which an f-string uses. */
  function PyStr(n: Node): (r: string)
    ensures r == PyRepr(n) <==> !(n.Scalar? && n.v.Str?)
    ensures n.Scalar? && n.v.Str? ==> r == n.v.s
  {
    match n
    case Scalar(Str(s)) => s
    case Scalar(v) => ValueText(v)
    case Null => "None"
    case _ => PyRepr(n)
  }

  // ---------------------------------------------------------------------------
  // Lines, element by element

  /** The lines of each element, one element after the other; the first
      exception ends the rendering. */
  function Lines<T>(xs: seq<T>, f: T -> Result<seq<string>>): Result<seq<string>>
    decreases |xs|
  {
    if xs == [] then Ok([]) else Then(Lines(xs[..|xs| - 1], f), f(xs[|xs| - 1]))
  }

  lemma LinesStep<T>(xs: seq<T>, i: nat, f: T -> Result<seq<string>>)
    requires i < |xs|
    ensures Lines(xs[..i + 1], f) == Then(Lines(xs[..i], f), f(xs[i]))
  {
    assert xs[..i + 1][..i] == xs[..i];
  }

  /** The rendering raises exactly when one element does. */
  lemma {:induction false} LinesRaises<T>(xs: seq<T>, f: T -> Result<seq<string>>)
    ensures Lines(xs, f).Raises? <==> exists i :: 0 <= i < |xs| && f(xs[i]).Raises?
    decreases |xs|
  {
    if xs != [] {
      var init := xs[..|xs| - 1];
      LinesRaises(init, f);
      assert forall i :: 0 <= i < |init| ==> init[i] == xs[i];
      if exists i :: 0 <= i < |xs| && f(xs[i]).Raises? {
        var i :| 0 <= i < |xs| && f(xs[i]).Raises?;
        if i < |init| {
          assert f(init[i]).Raises?;
        }
      }
    }
  }

  // ---------------------------------------------------------------------------
  // One argument

  /** `f"{indent}{key} = \"{value}\""`. */
  function QuotedLine(indent: string, k: Key, v: Node): string {
    indent + KeyText(k) + " = \"" + PyStr(v) + "\""
  }

  /** The sub-arguments of a dict argument, one quoted line each. */
  function SubLines(es: Entries): (ls: seq<string>)
    ensures |ls| == |es|
  {
    seq(|es|, i requires 0 <= i < |es| => QuotedLine("        ", es[i].0, es[i].1))
  }

  /** The items of a list argument, unquoted, each followed by a comma. */
  function ItemLines(xs: seq<Node>): (ls: seq<string>)
    ensures |ls| == |xs|
  {
    seq(|xs|, i requires 0 <= i < |xs| => ItemLine(xs[i]))
  }

  function ItemLine(x: Node): string {
    "        " + PyStr(x) + ","
  }

  /** The lines of one argument; only 6.py has a branch for lists. */
  function ArgumentLines(e: (Key, Node), lists: bool): (ls: seq<string>)
    ensures |ls| == if e.1.Map? then |e.1.entries| + 2 else if lists && e.1.List? then |e.1.items| + 2 else 1
    ensures var head := "      " + KeyText(e.0) + " = "; |head| <= |ls[0]| && ls[0][..|head|] == head
  {
    var (k, v) := e;
    if v.Map? then ["      " + KeyText(k) + " = {"] + SubLines(v.entries) + ["      }"]
    else if lists && v.List? then ["      " + KeyText(k) + " = ["] + ItemLines(v.items) + ["      ]"]
    else [QuotedLine("      ", k, v)]
  }

  function ArgumentLines6(e: (Key, Node)): Result<seq<string>> {
    Ok(ArgumentLines(e, true))
  }

  function ArgumentLinesMain(e: (Key, Node)): Result<seq<string>> {
    Ok(ArgumentLines(e, false))
  }

  function ArgumentsOf(lists: bool): ((Key, Node)) -> Result<seq<string>> {
    if lists then ArgumentLines6 else ArgumentLinesMain
  }

  /** `for sub_key, sub_value in value.items(): lines.append(...)`. */
  method SubBlock(es: Entries) returns (lines: seq<string>)
    ensures lines == SubLines(es)
  {
    lines := [];
    for j := 0 to |es|
      invariant lines == SubLines(es)[..j]
    {
      assert SubLines(es)[..j + 1] == SubLines(es)[..j] + [QuotedLine("        ", es[j].0, es[j].1)];
      lines := lines + [QuotedLine("        ", es[j].0, es[j].1)];
    }
  }

  /** `for item in value: lines.append(...)`. */
  method ItemBlock(xs: seq<Node>) returns (lines: seq<string>)
    ensures lines == ItemLines(xs)
  {
    lines := [];
    for j := 0 to |xs|
      invariant lines == ItemLines(xs)[..j]
    {
      assert ItemLines(xs)[..j + 1] == ItemLines(xs)[..j] + [ItemLine(xs[j])];
      lines := lines + [ItemLine(xs[j])];
    }
  }

  /** The lines of one argument, as the loop body appends them. */
  method ArgumentBlock(key: Key, value: Node, lists: bool) returns (lines: seq<string>)
    ensures lines == ArgumentLines((key, value), lists)
  {
    if value.Map? {
      var sub := SubBlock(value.entries);
      lines := ["      " + KeyText(key) + " = {"] + sub + ["      }"];
    } else if lists && value.List? {
      var items := ItemBlock(value.items);
      lines := ["      " + KeyText(key) + " = ["] + items + ["      ]"];
    } else {
      lines := [QuotedLine("      ", key, value)];
    }
  }

  /** The loop over a resource's arguments (6.py lines 74-86, main.py lines
      49-56). */
  method ArgumentsBlock(args: Entries, lists: bool) returns (lines: seq<string>)
    ensures Lines(args, ArgumentsOf(lists)) == Ok(lines)
  {
    lines := [];
    for i := 0 to |args|
      invariant Lines(args[..i], ArgumentsOf(lists)) == Ok(lines)
    {
      LinesStep(args, i, ArgumentsOf(lists));
      var ls := ArgumentBlock(args[i].0, args[i].1, lists);
      assert ArgumentsOf(lists)(args[i]) == Ok(ls);
      lines := lines + ls;
    }
    assert args[..|args|] == args;
  }

  // ---------------------------------------------------------------------------
  // Resources, sheets and collections

  /** A block of lines around the lines of its elements. */
  function Wrap(head: seq<string>, body: Result<seq<string>>, tail: seq<string>): (r: Result<seq<string>>)
    ensures r.Raises? <==> body.Raises?
  {
    if body.Ok? then Ok(head + body.value + tail) else Raises
  }

  /** An element that raises makes the whole rendering raise. */
  lemma LinesRaisesAt<T>(xs: seq<T>, i: nat, f: T -> Result<seq<string>>)
    requires i < |xs| && f(xs[i]).Raises?
    ensures Lines(xs, f).Raises?
  {
    LinesRaises(xs, f);
  }

  /** 6.py: one resource of a sheet, `{resource} = {` ... `}`; arguments that
      are not a dict make `arguments.items()` raise. */
  function ResourceLines6(e: (Key, Node)): Result<seq<string>> {
    if !e.1.Map? then Raises
    else Wrap(["    " + KeyText(e.0) + " = {"], Lines(e.1.entries, ArgumentLines6), ["    }"])
  }

  /** 6.py: one `{sheet_name: sheet_data}` item, `{` ... `},`. */
  function SheetLines6(e: (string, Entries)): Result<seq<string>> {
    Wrap(["  {"], Lines(e.1, ResourceLines6), ["  },"])
  }

  /** 6.py: one workbook, `{name} = [` ... `]`. */
  function WorkbookLines6(c: (string, seq<(string, Entries)>)): Result<seq<string>> {
    Wrap([c.0 + " = ["], Lines(c.1, SheetLines6), ["]"])
  }

  /** `generate_tfvars_content` of 6.py. */
  function Content6(cs: seq<(string, seq<(string, Entries)>)>): (r: Result<string>)
    ensures cs == [] ==> r == Ok("")
  {
    JoinLines(Lines(cs, WorkbookLines6))
  }

  /** main.py: one resource, `{` then `{resource} = {` ... `}` then `},`. */
  function ResourceLinesMain(e: (Key, Node)): Result<seq<string>> {
    if !e.1.Map? then Raises
    else Wrap(["  {", "    " + KeyText(e.0) + " = {"], Lines(e.1.entries, ArgumentLinesMain), ["    }", "  },"])
  }

  /** main.py: the resources of one sheet's `resource_data`. */
  function ResourceDataLines(rd: Entries): Result<seq<string>> {
    Lines(rd, ResourceLinesMain)
  }

  /** main.py: one collection, `{name} = [` ... `]`. */
  function CollectionLinesMain(c: (string, seq<Entries>)): Result<seq<string>> {
    Wrap([c.0 + " = ["], Lines(c.1, ResourceDataLines), ["]"])
  }

  /** `generate_tfvars_content` of main.py. */
  function ContentMain(cs: seq<(string, seq<Entries>)>): (r: Result<string>)
    ensures cs == [] ==> r == Ok("")
  {
    JoinLines(Lines(cs, CollectionLinesMain))
  }

  method ResourceBlock6(e: (Key, Node)) returns (r: Result<seq<string>>)
    ensures r == ResourceLines6(e)
  {
    var (resource, arguments) := e;
    if !arguments.Map? {
      return Raises;
    }
    var body := ArgumentsBlock(arguments.entries, true);
    assert ArgumentsOf(true) == ArgumentLines6;
    r := Ok(["    " + KeyText(resource) + " = {"] + body + ["    }"]);
  }

  method SheetBlock6(e: (string, Entries)) returns (r: Result<seq<string>>)
    ensures r == SheetLines6(e)
  {
    var resources := e.1;
    var lines := [];
    for i := 0 to |resources|
      invariant Lines(resources[..i], ResourceLines6) == Ok(lines)
    {
      LinesStep(resources, i, ResourceLines6);
      var ls := ResourceBlock6(resources[i]);
      if ls.Raises? {
        LinesRaisesAt(resources, i, ResourceLines6);
        return Raises;
      }
      lines := lines + ls.value;
    }
    assert resources[..|resources|] == resources;
    r := Ok(["  {"] + lines + ["  },"]);
  }

  method WorkbookBlock6(c: (string, seq<(string, Entries)>)) returns (r: Result<seq<string>>)
    ensures r == WorkbookLines6(c)
  {
    var sheets := c.1;
    var lines := [];
    for i := 0 to |sheets|
      invariant Lines(sheets[..i], SheetLines6) == Ok(lines)
    {
      LinesStep(sheets, i, SheetLines6);
      var ls := SheetBlock6(sheets[i]);
      if ls.Raises? {
        LinesRaisesAt(sheets, i, SheetLines6);
        return Raises;
      }
      lines := lines + ls.value;
    }
    assert sheets[..|sheets|] == sheets;
    r := Ok([c.0 + " = ["] + lines + ["]"]);
  }

  /** The loops of `generate_tfvars_content` in 6.py. */
  method GenerateContent6(cs: seq<(string, seq<(string, Entries)>)>) returns (r: Result<string>)
    ensures r == Content6(cs)
  {
    var lines := [];
    for i := 0 to |cs|
      invariant Lines(cs[..i], WorkbookLines6) == Ok(lines)
    {
      LinesStep(cs, i, WorkbookLines6);
      var ls := WorkbookBlock6(cs[i]);
      if ls.Raises? {
        LinesRaisesAt(cs, i, WorkbookLines6);
        return Raises;
      }
      lines := lines + ls.value;
    }
    assert cs[..|cs|] == cs;
    r := Ok(Join(lines, "\n"));
  }

  method ResourceBlockMain(e: (Key, Node)) returns (r: Result<seq<string>>)
    ensures r == ResourceLinesMain(e)
  {
    var (resource, arguments) := e;
    if !arguments.Map? {
      return Raises;
    }
    var body := ArgumentsBlock(arguments.entries, false);
    assert ArgumentsOf(false) == ArgumentLinesMain;
    r := Ok(["  {", "    " + KeyText(resource) + " = {"] + body + ["    }", "  },"]);
  }

  method ResourceDataBlock(rd: Entries) returns (r: Result<seq<string>>)
    ensures r == ResourceDataLines(rd)
  {
    var lines := [];
    for i := 0 to |rd|
      invariant Lines(rd[..i], ResourceLinesMain) == Ok(lines)
    {
      LinesStep(rd, i, ResourceLinesMain);
      var ls := ResourceBlockMain(rd[i]);
      if ls.Raises? {
        LinesRaisesAt(rd, i, ResourceLinesMain);
        return Raises;
      }
      lines := lines + ls.value;
    }
    assert rd[..|rd|] == rd;
    r := Ok(lines);
  }

  method CollectionBlockMain(c: (string, seq<Entries>)) returns (r: Result<seq<string>>)
    ensures r == CollectionLinesMain(c)
  {
    var resources := c.1;
    var lines := [];
    for i := 0 to |resources|
      invariant Lines(resources[..i], ResourceDataLines) == Ok(lines)
    {
      LinesStep(resources, i, ResourceDataLines);
      var ls := ResourceDataBlock(resources[i]);
      if ls.Raises? {
        LinesRaisesAt(resources, i, ResourceDataLines);
        return Raises;
      }
      lines := lines + ls.value;
    }
    assert resources[..|resources|] == resources;
    r := Ok([c.0 + " = ["] + lines + ["]"]);
  }

  /** The loops of `generate_tfvars_content` in main.py. */
  method GenerateContentMain(cs: seq<(string, seq<Entries>)>) returns (r: Result<string>)
    ensures r == ContentMain(cs)
  {
    var lines := [];
    for i := 0 to |cs|
      invariant Lines(cs[..i], CollectionLinesMain) == Ok(lines)
    {
      LinesStep(cs, i, CollectionLinesMain);
      var ls := CollectionBlockMain(cs[i]);
      if ls.Raises? {
        LinesRaisesAt(cs, i, CollectionLinesMain);
        return Raises;
      }
      lines := lines + ls.value;
    }
    assert cs[..|cs|] == cs;
    r := Ok(Join(lines, "\n"));
  }

  // ---------------------------------------------------------------------------
  // Properties of the renderers

  lemma LinesRaisesIn<T>(xs: seq<T>, f: T -> Result<seq<string>>)
    ensures Lines(xs, f).Raises? <==> exists x :: x in xs && f(x).Raises?
  {
    LinesRaises(xs, f);
    if exists x :: x in xs && f(x).Raises? {
      var x :| x in xs && f(x).Raises?;
      var i :| 0 <= i < |xs| && xs[i] == x;
    }
  }

  /** A resource renders unless its arguments are not a dict. */
  lemma ResourceRaises(e: (Key, Node), lists: bool)
    ensures (if lists then ResourceLines6(e) else ResourceLinesMain(e)).Raises? <==> !e.1.Map?
  {
    if e.1.Map? {
      LinesRaisesIn(e.1.entries, ArgumentsOf(lists));
      assert ArgumentsOf(true) == ArgumentLines6 && ArgumentsOf(false) == ArgumentLinesMain;
    }
  }

  /** 6.py's rendering raises exactly when some resource of some sheet is not
      a dict (which a row with an index piece makes it; see the 6.py builder). */
  lemma Content6Raises(cs: seq<(string, seq<(string, Entries)>)>)
    ensures Content6(cs).Raises? <==> exists c, s, e :: c in cs && s in c.1 && e in s.1 && !e.1.Map?
  {
    LinesRaisesIn(cs, WorkbookLines6);
    forall c | c in cs
      ensures WorkbookLines6(c).Raises? <==> exists s, e :: s in c.1 && e in s.1 && !e.1.Map?
    {
      LinesRaisesIn(c.1, SheetLines6);
      forall s | s in c.1 ensures SheetLines6(s).Raises? <==> exists e :: e in s.1 && !e.1.Map? {
        LinesRaisesIn(s.1, ResourceLines6);
        forall e | e in s.1 ensures ResourceLines6(e).Raises? <==> !e.1.Map? {
          ResourceRaises(e, true);
        }
      }
    }
  }

  /** main.py's rendering raises exactly when some resource is not a dict. */
  lemma ContentMainRaises(cs: seq<(string, seq<Entries>)>)
    ensures ContentMain(cs).Raises? <==> exists c, rd, e :: c in cs && rd in c.1 && e in rd && !e.1.Map?
  {
    LinesRaisesIn(cs, CollectionLinesMain);
    forall c | c in cs
      ensures CollectionLinesMain(c).Raises? <==> exists rd, e :: rd in c.1 && e in rd && !e.1.Map?
    {
      LinesRaisesIn(c.1, ResourceDataLines);
      forall rd | rd in c.1 ensures ResourceDataLines(rd).Raises? <==> exists e :: e in rd && !e.1.Map? {
        LinesRaisesIn(rd, ResourceLinesMain);
        forall e | e in rd ensures ResourceLinesMain(e).Raises? <==> !e.1.Map? {
          ResourceRaises(e, false);
        }
      }
    }
  }

  /** Every leaf comes out as an HCL string: the line is what the main
      renderer (main4.py, main7.py) writes for the text `str(value)`, so a
      number or a boolean is written as a string. A value that is not a dict
      (or, in 6.py, a list) is such a leaf, whatever is inside it. */
  lemma ConcatAssoc(a: string, b: string, c: string)
    ensures a + b + c == a + (b + c)
  { }

  lemma LeavesAreStrings(k: Key, v: Node, lists: bool)
    requires !v.Map? && !(lists && v.List?)
    ensures ArgumentLines((k, v), lists) ==
      ["      " + KeyText(k) + " = " + FormatPrimitive(Scalar(Str(PyStr(v))), false).value]
    ensures v.Scalar? && v.v.N? ==> PyStr(v) == IntToDecimal(v.v.n)
  {
    var key, text := KeyText(k), PyStr(v);
    assert ArgumentLines((k, v), lists) == [QuotedLine("      ", k, v)];
    assert QuotedLine("      ", k, v) == "      " + key + " = \"" + text + "\"";
    var quoted := FormatPrimitive(Scalar(Str(text)), false).value;
    assert quoted == "\"" + text + "\"";
    var head := "      " + key;
    assert " = \"" == " = " + "\"";
    ConcatAssoc(head, " = ", "\"");
    ConcatAssoc(head + " = ", "\"", text);
    ConcatAssoc(head + " = ", "\"" + text, "\"");
    assert ArgumentLines((k, v), lists) == ["      " + key + " = " + quoted];
    if v.Scalar? && v.v.N? {
      assert text == ValueText(v.v);
    }
  }
}
