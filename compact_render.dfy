/** The renderer of 5.py (`dict_to_hcl`, lines 10-27) and 2.py (lines 11-28):
    one expression per value, entries and items joined with `,\n`, strings in
    quotes without any escaping, and everything else as Python's `str()`. */
module CompactRender {
  import opened PyValues
  import opened Tree
  import HclRender

  /** `format_value(value)`. */
  function FormatValue(n: Node): (r: string)
    ensures n.Map? ==> |r| >= 2 && r[0] == '{' && r[|r| - 1] == '}'
    ensures n.List? ==> |r| >= 2 && r[0] == '[' && r[|r| - 1] == ']'
    ensures n.Scalar? && n.v.Str? ==> |r| == |n.v.s| + 2 && r[0] == r[|r| - 1] == '"' && r[1..|r| - 1] == n.v.s
    decreases n
  {
    match n
    case Scalar(Str(s)) => "\"" + s + "\""
    case List(xs) =>
      "[\n" + Join(seq(|xs|, i requires 0 <= i < |xs| => (assert xs[i] in xs; FormatValue(xs[i]))), ",\n") + "\n]"
    case Map(es) =>
      "{\n" + Join(seq(|es|, i requires 0 <= i < |es| => (assert es[i] in es; EntryText(es[i].0, FormatValue(es[i].1)))), ",\n") + "\n}"
    case Scalar(v) => ValueText(v)
    case Null => "None"
  }

  /** `f'{key} = {text}'`. */
  function EntryText(k: Key, text: string): (r: string)
    ensures |r| == |HclRender.KeyText(k)| + 3 + |text|
    ensures r[..|HclRender.KeyText(k)|] == HclRender.KeyText(k) && r[|r| - |text|..] == text
  {
    HclRender.KeyText(k) + " = " + text
  }

  /** The text of each entry, in dict order. */
  function EntryTexts(es: Entries): (ts: seq<string>)
    ensures |ts| == |es|
  {
    if es == [] then [] else [EntryText(es[0].0, FormatValue(es[0].1))] + EntryTexts(es[1..])
  }

  /** `dict_to_hcl(data)`: the top-level entries joined with `,\n`. */
  function DictToHcl(es: Entries): (r: string)
    ensures es == [] ==> r == ""
    ensures |es| == 1 ==> r == EntryText(es[0].0, FormatValue(es[0].1))
  {
    Join(EntryTexts(es), ",\n")
  }

  // ---------------------------------------------------------------------------
  // Properties of the renderer

  /** Against the renderer of main4.py and main7.py (without escaping): strings
      and numbers come out the same; booleans come out as Python's `True` and
      `False`, which HCL does not read as booleans, and `None` comes out bare
      instead of quoted. */
  lemma ScalarsAgainstMainRenderer(v: Node)
    requires !v.Map? && !v.List?
    ensures FormatValue(v) == HclRender.FormatPrimitive(v, false).value <==> !v.Null? && !v.v.B?
    ensures v == Scalar(B(true)) ==> FormatValue(v) == "True"
    ensures v == Scalar(B(false)) ==> FormatValue(v) == "False"
  {
    if v.Null? {
      assert FormatValue(v) != HclRender.FormatPrimitive(v, false).value by {
        assert FormatValue(v)[0] == 'N';
      }
    } else if v.v.B? {
      assert FormatValue(v)[0] != HclRender.FormatPrimitive(v, false).value[0];
    }
  }

  /** Every entry has a ` = ` in it, so the output is empty exactly when there
      is nothing to render. */
  lemma EmptyOutput(es: Entries)
    ensures DictToHcl(es) == [] <==> es == []
  {
    if es != [] {
      var ts := EntryTexts(es);
      assert |ts[0]| > 0;
      if |ts| > 1 {
        assert DictToHcl(es) == ts[0] + ",\n" + Join(ts[1..], ",\n");
      }
    }
  }

  /** The entries come out in dict order: rendering two runs of entries is
      rendering each and joining them with `,\n`. */
  lemma DictToHclAppend(a: Entries, b: Entries)
    requires a != [] && b != []
    ensures DictToHcl(a + b) == DictToHcl(a) + ",\n" + DictToHcl(b)
  {
    EntryTextsAppend(a, b);
    JoinAppend(EntryTexts(a), EntryTexts(b), ",\n");
  }

  lemma {:induction false} EntryTextsAppend(a: Entries, b: Entries)
    ensures EntryTexts(a + b) == EntryTexts(a) + EntryTexts(b)
  {
    if a != [] {
      assert (a + b)[0] == a[0] && (a + b)[1..] == a[1..] + b;
      EntryTextsAppend(a[1..], b);
    } else {
      assert a + b == b;
    }
  }
}
