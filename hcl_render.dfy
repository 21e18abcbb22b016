/** The HCL writer of main4.py (lines 78-129), main7.py (lines 72-123),
    main8.py (lines 54-91) and main11.py (lines 52-91): `format_primitive`,
    `dict_to_hcl` and `list_to_hcl`. The four are the same but for one switch:
    main11.py escapes `${` as `$${` in strings (and so fails on `None`, which
    has no `replace`). */
module HclRender {
  import opened PyValues
  import opened Tree

  /** `"  " * n`. */
  function Indent(n: nat): (r: string)
    ensures |r| == 2 * n
  {
    if n == 0 then "" else "  " + Indent(n - 1)
  }

  /** `str(k)` for a dict key. */
  function KeyText(k: Key): string {
    match k
    case S(s) => s
    case I(i) => IntToDecimal(i)
  }

  // ---------------------------------------------------------------------------
  // Template escaping

  /** `s.replace("${", "$${")`: every `${`, scanning left to right. */
  function Escape(s: string): (r: string)
    ensures |r| >= |s|
    ensures (forall i :: 0 <= i < |s| - 1 ==> !(s[i] == '$' && s[i + 1] == '{')) ==> r == s
  {
    if |s| >= 2 && s[0] == '$' && s[1] == '{' then "$${" + Escape(s[2..])
    else if s == [] then ""
    else [s[0]] + Escape(s[1..])
  }

  /** How HCL reads the inside of a quoted string, as far as it matters for
      reading a text back literally: `$${` and `%%{` stand for the literal
      `${` and `%{`. `None` means the text is not read as literal characters:
      a bare `${` opens an interpolation, a bare `%{` a template directive, a
      `"` ends the string early, and a backslash starts an escape sequence
      (which sequences HCL accepts, and what they stand for, is not modelled). */
  function ReadTemplate(t: string): Option<string> {
    if |t| >= 3 && t[0] == '$' && t[1] == '$' && t[2] == '{' then
      match ReadTemplate(t[3..])
      case None => None
      case Some(rest) => Some("${" + rest)
    else if |t| >= 3 && t[0] == '%' && t[1] == '%' && t[2] == '{' then
      match ReadTemplate(t[3..])
      case None => None
      case Some(rest) => Some("%{" + rest)
    else if |t| >= 2 && (t[0] == '$' || t[0] == '%') && t[1] == '{' then None
    else if t == [] then Some("")
    else if t[0] == '"' || t[0] == '\\' then None
    else
      match ReadTemplate(t[1..])
      case None => None
      case Some(rest) => Some([t[0]] + rest)
  }

  /** Text that main11.py's escaping is enough for: no `"`, no backslash and
      no `%{`, none of which `replace("${", "$${")` touches. */
  predicate PlainText(s: string) {
    forall i :: 0 <= i < |s| ==>
      s[i] != '"' && s[i] != '\\' && (s[i] == '%' ==> i + 1 == |s| || s[i + 1] != '{')
  }

  /** Escaping starts with the character the text starts with. */
  lemma EscapeHead(s: string)
    requires s != []
    ensures Escape(s) != [] && Escape(s)[0] == s[0]
  {
  }

  /** An escaped plain text reads back as exactly the original text: nothing
      in it is taken for an interpolation. */
  lemma {:induction false} EscapeReadsBack(s: string)
    requires PlainText(s)
    ensures ReadTemplate(Escape(s)) == Some(s)
  {
    if |s| >= 2 && s[0] == '$' && s[1] == '{' {
      EscapeReadsBack(s[2..]);
      var e := Escape(s);
      assert e[3..] == Escape(s[2..]);
      assert s == "${" + s[2..];
    } else if s != [] {
      var rest := s[1..];
      EscapeReadsBack(rest);
      var e := Escape(s);
      assert e[0] == s[0] && e[1..] == Escape(rest);
      if rest != [] {
        EscapeHead(rest);
        assert e[1] == rest[0];
        if rest[0] == s[0] && (s[0] == '$' || s[0] == '%') && |e| >= 3 {
          if |rest| >= 2 && rest[0] == '$' && rest[1] == '{' {
            assert e[1..][..3] == "$${";
          } else {
            assert e[1..][1..] == Escape(rest[1..]);
            if rest[1..] != [] {
              EscapeHead(rest[1..]);
            }
          }
        }
      }
      assert s == [s[0]] + s[1..];
    }
  }

  /** Escaping keeps every character of the text. */
  lemma {:induction false} EscapeKeeps(s: string, c: char)
    requires c in s
    ensures c in Escape(s)
  {
    if |s| >= 2 && s[0] == '$' && s[1] == '{' {
      if c != '$' && c != '{' {
        assert c in s[2..];
        EscapeKeeps(s[2..], c);
      }
    } else if s[0] != c {
      assert c in s[1..];
      EscapeKeeps(s[1..], c);
    }
  }

  /** A text holding a `"` or a backslash is never read literally. */
  lemma {:induction false} QuoteOrBackslashNotRead(t: string, c: char)
    requires c == '"' || c == '\\'
    requires c in t
    ensures ReadTemplate(t) == None
  {
    if |t| >= 3 && (t[0] == '$' || t[0] == '%') && t[1] == t[0] && t[2] == '{' {
      assert c in t[3..];
      QuoteOrBackslashNotRead(t[3..], c);
    } else if t[0] != c && !(|t| >= 2 && (t[0] == '$' || t[0] == '%') && t[1] == '{') {
      assert c in t[1..];
      QuoteOrBackslashNotRead(t[1..], c);
    }
  }

  /** main11.py's escaping is not enough for a `"` or a backslash: the
      rendered string does not read back. */
  lemma QuoteOrBackslashEscapedNotRead(s: string, c: char)
    requires c == '"' || c == '\\'
    requires c in s
    ensures ReadTemplate(Escape(s)) == None
  {
    EscapeKeeps(s, c);
    QuoteOrBackslashNotRead(Escape(s), c);
  }

  /** ... nor for a template directive: `%{` is left as it is and HCL reads
      it as a directive. */
  lemma DirectiveNotEscaped(s: string)
    requires |s| >= 2 && s[0] == '%' && s[1] == '{'
    ensures ReadTemplate(s) == None
    ensures ReadTemplate(Escape(s)) == None
  {
    EscapeHead(s[1..]);
    assert Escape(s)[1..] == Escape(s[1..]);
  }

  /** Without the escape, a string that starts an interpolation is not read
      as the literal text (main4.py, main7.py and main8.py); escaped, a plain
      text reads back as itself. */
  lemma UnescapedInterpolates(s: string)
    requires |s| >= 2 && s[0] == '$' && s[1] == '{'
    ensures ReadTemplate(s) == None
    ensures PlainText(s) ==> ReadTemplate(Escape(s)) == Some(s)
  {
    if PlainText(s) {
      EscapeReadsBack(s);
    }
  }

  // ---------------------------------------------------------------------------
  // format_primitive

  /** `format_primitive(v)`: bools lower-case, ints and floats as `str()` prints
      them, anything else between double quotes, escaped or not. `None` prints
      as `"None"` without escaping and raises with it. */
  function FormatPrimitive(v: Node, escape: bool): (r: Result<string>)
    requires !v.Map? && !v.List?
    ensures r.Raises? <==> escape && v.Null?
    ensures v == Scalar(B(true)) ==> r == Ok("true")
    ensures v == Scalar(B(false)) ==> r == Ok("false")
    ensures v.Scalar? && v.v.N? ==> r == Ok(IntToDecimal(v.v.n))
    ensures v.Scalar? && v.v.F? ==> r == Ok(v.v.f.repr)
    ensures v.Scalar? && v.v.Str? ==> r == Ok("\"" + (if escape then Escape(v.v.s) else v.v.s) + "\"")
    ensures v.Null? && !escape ==> r == Ok("\"None\"")
  {
    match v
    case Scalar(B(b)) => Ok(if b then "true" else "false")
    case Scalar(N(i)) => Ok(IntToDecimal(i))
    case Scalar(F(f)) => Ok(f.repr)
    case Scalar(Str(s)) => Ok("\"" + (if escape then Escape(s) else s) + "\"")
    case Null => if escape then Raises else Ok("\"None\"")
  }

  /** The text between the quotes of a quoted string. */
  function Unquote(t: string): Option<string> {
    if |t| >= 2 && t[0] == '"' && t[|t| - 1] == '"' then Some(t[1..|t| - 1]) else None
  }

  /** Reading a rendered string back: the quotes enclose the text, which HCL
      reads as the original string when it was escaped and is plain, and does
      not read at all when it holds a `"` or a backslash. */
  lemma StringReadsBack(s: string)
    ensures Unquote(FormatPrimitive(Scalar(Str(s)), false).value) == Some(s)
    ensures Unquote(FormatPrimitive(Scalar(Str(s)), true).value) == Some(Escape(s))
    ensures PlainText(s) ==> ReadTemplate(Unquote(FormatPrimitive(Scalar(Str(s)), true).value).value) == Some(s)
    ensures '"' in s || '\\' in s ==> ReadTemplate(Unquote(FormatPrimitive(Scalar(Str(s)), true).value).value) == None
  {
    var q := "\"" + s + "\"";
    assert q[1..|q| - 1] == s;
    var e := "\"" + Escape(s) + "\"";
    assert e[1..|e| - 1] == Escape(s);
    if PlainText(s) {
      EscapeReadsBack(s);
    }
    if '"' in s {
      QuoteOrBackslashEscapedNotRead(s, '"');
    } else if '\\' in s {
      QuoteOrBackslashEscapedNotRead(s, '\\');
    }
  }

  // ---------------------------------------------------------------------------
  // dict_to_hcl and list_to_hcl

  /** Both lists of lines, or the exception raised while making either. */
  function Then(a: Result<seq<string>>, b: Result<seq<string>>): (r: Result<seq<string>>)
    ensures r.Raises? <==> a.Raises? || b.Raises?
  {
    if a.Ok? && b.Ok? then Ok(a.value + b.value) else Raises
  }

  function JoinLines(r: Result<seq<string>>): Result<string> {
    if r.Ok? then Ok(Join(r.value, "\n")) else Raises
  }

  /** The lines `dict_to_hcl` makes for one entry `k = v`. */
  function EntryLines(k: Key, v: Node, indent: nat, escape: bool): (r: Result<seq<string>>)
    ensures r.Ok? ==> r.value != []
    ensures r.Ok? ==> var head := Indent(indent) + KeyText(k) + " = ";
      |head| <= |r.value[0]| && r.value[0][..|head|] == head
    decreases Size(v), 1
  {
    var ind := Indent(indent);
    SizeOfContainer(v);
    match v
    case Map(c) =>
      var body := DictText(c, indent + 1, escape);
      if body.Raises? then Raises else Ok([ind + KeyText(k) + " = {", body.value, ind + "}"])
    case List(xs) =>
      var t := ListText(xs, indent, escape);
      if t.Raises? then Raises else Ok([ind + KeyText(k) + " = " + t.value])
    case _ =>
      var p := FormatPrimitive(v, escape);
      if p.Raises? then Raises else Ok([ind + KeyText(k) + " = " + p.value])
  }

  /** The lines of a dict's entries, in insertion order. */
  function DictLines(es: Entries, indent: nat, escape: bool): (r: Result<seq<string>>)
    ensures r.Ok? ==> |r.value| >= |es|
    decreases EntriesSize(es), 2
  {
    if es == [] then Ok([])
    else
      EntriesSizeCons(es);
      Then(EntryLines(es[0].0, es[0].1, indent, escape), DictLines(es[1..], indent, escape))
  }

  /** `dict_to_hcl(d, indent)`. */
  function DictText(es: Entries, indent: nat, escape: bool): (r: Result<string>)
    ensures es == [] ==> r == Ok("")
    decreases EntriesSize(es), 3
  {
    JoinLines(DictLines(es, indent, escape))
  }

  /** The lines `list_to_hcl` makes for one element: each ends with a comma. */
  function ItemLines(x: Node, indent: nat, escape: bool): (r: Result<seq<string>>)
    ensures r.Ok? ==> r.value != [] && var last := r.value[|r.value| - 1]; last != [] && last[|last| - 1] == ','
    decreases Size(x), 1
  {
    var inner := Indent(indent + 1);
    SizeOfContainer(x);
    match x
    case Map(c) =>
      var body := DictText(c, indent + 2, escape);
      if body.Raises? then Raises else Ok([inner + "{", body.value, inner + "},"])
    case List(ys) =>
      var t := ListText(ys, indent + 1, escape);
      if t.Raises? then Raises else Ok([inner + t.value + ","])
    case _ =>
      var p := FormatPrimitive(x, escape);
      if p.Raises? then Raises else Ok([inner + p.value + ","])
  }

  /** The lines of a list's elements, in index order. */
  function ListLines(xs: seq<Node>, indent: nat, escape: bool): (r: Result<seq<string>>)
    ensures r.Ok? ==> |r.value| >= |xs|
    decreases ItemsSize(xs), 2
  {
    if xs == [] then Ok([])
    else
      ItemsSizeCons(xs);
      Then(ItemLines(xs[0], indent, escape), ListLines(xs[1..], indent, escape))
  }

  /** `list_to_hcl(lst, indent)`: `[`, the elements, and `]` at the caller's indent. */
  function ListText(xs: seq<Node>, indent: nat, escape: bool): (r: Result<string>)
    ensures r.Ok? ==> r.value != [] && r.value[0] == '[' && r.value[|r.value| - 1] == ']'
    decreases ItemsSize(xs), 3
  {
    var lines := Then(Then(Ok(["["]), ListLines(xs, indent, escape)), Ok([Indent(indent) + "]"]));
    if lines.Ok? then
      JoinEnds(lines.value, "\n");
      JoinLines(lines)
    else Raises
  }

  // ---------------------------------------------------------------------------
  // What the rendering promises

  /** Gluing three runs of lines does not depend on the grouping. */
  lemma ThenAssoc(x: Result<seq<string>>, y: Result<seq<string>>, z: Result<seq<string>>)
    ensures Then(x, Then(y, z)) == Then(Then(x, y), z)
  {
    if x.Ok? && y.Ok? && z.Ok? {
      assert x.value + (y.value + z.value) == (x.value + y.value) + z.value;
    }
  }

  /** Rendering two runs of entries one after the other gives their lines one
      after the other: entries come out in insertion order. */
  lemma {:induction false} DictLinesAppend(a: Entries, b: Entries, indent: nat, escape: bool)
    ensures DictLines(a + b, indent, escape) == Then(DictLines(a, indent, escape), DictLines(b, indent, escape))
    decreases |a|
  {
    if a == [] {
      assert a + b == b;
      var z := DictLines(b, indent, escape);
      if z.Ok? {
        assert [] + z.value == z.value;
      }
    } else {
      var ab := a + b;
      assert ab[0] == a[0] && ab[1..] == a[1..] + b;
      var x := EntryLines(a[0].0, a[0].1, indent, escape);
      assert DictLines(ab, indent, escape) == Then(x, DictLines(a[1..] + b, indent, escape));
      DictLinesAppend(a[1..], b, indent, escape);
      ThenAssoc(x, DictLines(a[1..], indent, escape), DictLines(b, indent, escape));
    }
  }

  lemma DictLinesOne(k: Key, v: Node, indent: nat, escape: bool)
    ensures DictLines([(k, v)], indent, escape) == Then(EntryLines(k, v, indent, escape), Ok([]))
  {
    assert [(k, v)][1..] == [];
  }

  /** Writing an existing key re-renders it where it stood; a new key is
      rendered after all the others. */
  lemma PutRendersInPlace(es: Entries, k: Key, v: Node, indent: nat, escape: bool)
    ensures Has(es, k) ==>
      var i := Find(es, k);
      DictLines(Put(es, k, v), indent, escape) ==
      Then(Then(DictLines(es[..i], indent, escape), EntryLines(k, v, indent, escape)), DictLines(es[i + 1..], indent, escape))
    ensures !Has(es, k) ==>
      DictLines(Put(es, k, v), indent, escape) == Then(DictLines(es, indent, escape), EntryLines(k, v, indent, escape))
  {
    var i := Find(es, k);
    DictLinesOne(k, v, indent, escape);
    var e := EntryLines(k, v, indent, escape);
    if i < |es| {
      var r := Put(es, k, v);
      assert r == es[..i] + [(k, v)] + es[i + 1..];
      DictLinesAppend(es[..i] + [(k, v)], es[i + 1..], indent, escape);
      DictLinesAppend(es[..i], [(k, v)], indent, escape);
      if e.Ok? {
        assert e.value + [] == e.value;
      }
    } else {
      DictLinesAppend(es, [(k, v)], indent, escape);
      if e.Ok? {
        assert e.value + [] == e.value;
      }
    }
  }

  /** No `None` anywhere in the tree. */
  predicate NullFree(n: Node)
    decreases n
  {
    match n
    case Null => false
    case Scalar(_) => true
    case Map(es) => forall e | e in es :: NullFree(e.1)
    case List(xs) => forall x | x in xs :: NullFree(x)
  }

  predicate EntriesNullFree(es: Entries) {
    forall e | e in es :: NullFree(e.1)
  }

  predicate ItemsNullFree(xs: seq<Node>) {
    forall x | x in xs :: NullFree(x)
  }

  lemma EntriesNullFreeCons(es: Entries)
    requires es != []
    ensures EntriesNullFree(es) <==> NullFree(es[0].1) && EntriesNullFree(es[1..])
  {
    assert es == [es[0]] + es[1..];
    assert forall e :: e in es <==> e == es[0] || e in es[1..];
  }

  lemma ItemsNullFreeCons(xs: seq<Node>)
    requires xs != []
    ensures ItemsNullFree(xs) <==> NullFree(xs[0]) && ItemsNullFree(xs[1..])
  {
    assert xs == [xs[0]] + xs[1..];
    assert forall x :: x in xs <==> x == xs[0] || x in xs[1..];
  }

  /** An entry fails to render exactly when escaping is on and a `None` sits
      somewhere in its value. */
  lemma {:induction false} EntryRaises(k: Key, v: Node, indent: nat, escape: bool)
    ensures EntryLines(k, v, indent, escape).Raises? <==> escape && !NullFree(v)
    decreases Size(v), 1
  {
    SizeOfContainer(v);
    match v
    case Map(c) => DictRaises(c, indent + 1, escape);
    case List(xs) => ListRaises(xs, indent, escape);
    case _ =>
  }

  lemma {:induction false} DictRaises(es: Entries, indent: nat, escape: bool)
    ensures DictLines(es, indent, escape).Raises? <==> escape && !EntriesNullFree(es)
    ensures DictText(es, indent, escape).Raises? <==> escape && !EntriesNullFree(es)
    decreases EntriesSize(es), 2
  {
    if es != [] {
      EntriesSizeCons(es);
      EntryRaises(es[0].0, es[0].1, indent, escape);
      DictRaises(es[1..], indent, escape);
      EntriesNullFreeCons(es);
    }
  }

  lemma {:induction false} ItemRaises(x: Node, indent: nat, escape: bool)
    ensures ItemLines(x, indent, escape).Raises? <==> escape && !NullFree(x)
    decreases Size(x), 1
  {
    SizeOfContainer(x);
    match x
    case Map(c) => DictRaises(c, indent + 2, escape);
    case List(ys) => ListRaises(ys, indent + 1, escape);
    case _ =>
  }

  lemma {:induction false} ListRaises(xs: seq<Node>, indent: nat, escape: bool)
    ensures ListLines(xs, indent, escape).Raises? <==> escape && !ItemsNullFree(xs)
    ensures ListText(xs, indent, escape).Raises? <==> escape && !ItemsNullFree(xs)
    decreases ItemsSize(xs), 2
  {
    if xs != [] {
      ItemsSizeCons(xs);
      ItemRaises(xs[0], indent, escape);
      ListRaises(xs[1..], indent, escape);
      ItemsNullFreeCons(xs);
    }
  }
}
