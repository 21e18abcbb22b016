/** `set_nested_value` of main8.py (lines 23-50) and main11.py (lines 21-49),
    which are the same function: every child is obtained with `setdefault`, so
    an existing child is never replaced, whatever its kind. Python's duck
    typing then decides what a child of an unexpected kind does: `len()` and
    `[j]` work on a dict and on a string, `append` only on a list. */
module SetdefaultBuilder {
  import opened PyValues
  import opened Tree
  import opened Address
  import opened PathToken
  import OB = OverwriteBuilder

  /** The last piece: `cur[key] = value`, or for `key[j]`:
      `cur.setdefault(key, [])`, pad with `None` up to `j`, then `cur[key][j] = value`. */
  function WriteLast(es: Entries, tok: Token, v: Node): (r: Result<Entries>)
    ensures r.Ok? ==> forall k :: k != S(tok.name) ==> Lookup(r.value, k) == Lookup(es, k)
    ensures r.Ok? ==> KeysOf(r.value) == if Has(es, S(tok.name)) then KeysOf(es) else KeysOf(es) + [S(tok.name)]
    ensures tok.index.None? ==> r == Ok(Put(es, S(tok.name), v))
    ensures tok.index.Some? ==>
      var j, child := tok.index.value, Lookup(es, S(tok.name));
      (r.Raises? <==>
        child.Some? && !child.value.List? && !(child.value.Map? && j < |child.value.entries|)) &&
      (child.None? || child.value.List? ==>
        var was := if child.None? then [] else child.value.items;
        r.Ok? && Lookup(r.value, S(tok.name)).Some? && Lookup(r.value, S(tok.name)).value.List? &&
        var xs := Lookup(r.value, S(tok.name)).value.items;
        |xs| == (if |was| <= j then j + 1 else |was|) && xs[j] == v &&
        (forall i :: 0 <= i < |xs| && i != j ==> xs[i] == if i < |was| then was[i] else Null)) &&
      (r.Ok? && child.Some? && child.value.Map? ==>
        Lookup(r.value, S(tok.name)) == Some(Map(Put(child.value.entries, I(j), v))))
  {
    var k := S(tok.name);
    match tok.index
    case None => Ok(Put(es, k, v))
    case Some(j) =>
      var (es1, child) := Setdefault(es, k, List([]));
      match child
      case List(xs) => Ok(Put(es1, k, List(Padded(xs, j + 1, Null)[j := v])))
      case Map(c) => if j < |c| then Ok(Put(es1, k, Map(Put(c, I(j), v)))) else Raises
      case _ => Raises
  }

  /** An inner piece: the dict after the child has been made ready, and the
      steps down to the new cursor. `key` continues at whatever child is there
      (`{}` when absent). `key[j]` pads a list with `{}` and turns a `None` slot
      into `{}`; on a dict with more than `j` entries it reads the int key `j`
      (a `None` there becomes `{}`); on a string longer than `j` the cursor
      becomes the character `s[j]`, which is outside the tree and, being a
      string like `s`, is represented by `s` itself. Anything else raises. */
  function Prepare(es: Entries, tok: Token): (r: Result<(Node, seq<Step>)>)
    ensures r.Ok? ==> r.value.0.Map? && At(r.value.0, r.value.1).Some?
    ensures r.Ok? ==> forall k :: k != S(tok.name) ==> Lookup(r.value.0.entries, k) == Lookup(es, k)
    ensures r.Ok? ==> KeysOf(r.value.0.entries) == if Has(es, S(tok.name)) then KeysOf(es) else KeysOf(es) + [S(tok.name)]
    ensures r.Ok? ==> r.value.1 != [] && r.value.1[0] == Field(S(tok.name))
    ensures tok.index.None? ==>
      r.Ok? && r.value.1 == [Field(S(tok.name))] &&
      r.value.0 == (if Has(es, S(tok.name)) then Map(es) else Map(Put(es, S(tok.name), EmptyMap)))
    ensures tok.index.Some? ==>
      var j, child := tok.index.value, Lookup(es, S(tok.name));
      (r.Raises? <==> child.Some? && match child.value
        case List(_) => false
        case Map(c) => j >= |c| || !Has(c, I(j))
        case Scalar(x) => !(x.Str? && j < |x.s|)
        case Null => true) &&
      (child.Some? && !child.value.List? ==> r.Ok? ==> Lookup(r.value.0.entries, S(tok.name)).value.Map? == child.value.Map?)
  {
    var k := S(tok.name);
    match tok.index
    case None =>
      var (es1, _) := Setdefault(es, k, EmptyMap);
      Ok((Map(es1), [Field(k)]))
    case Some(j) =>
      var (es1, child) := Setdefault(es, k, List([]));
      match child
      case List(xs0) =>
        var xs := Padded(xs0, j + 1, EmptyMap);
        var xs' := if xs[j] == Null then xs[j := EmptyMap] else xs;
        var m := Map(Put(es1, k, List(xs')));
        assert [Field(k), Slot(j)][1..] == [Slot(j)] && [Slot(j)][1..] == [];
        assert Child(m, Field(k)) == Some(List(xs'));
        assert At(List(xs'), [Slot(j)]) == At(xs'[j], []);
        Ok((m, [Field(k), Slot(j)]))
      case Map(c) =>
        if j >= |c| then Raises
        else if !Has(c, I(j)) then Raises
        else
          var c' := if Lookup(c, I(j)).value == Null then Put(c, I(j), EmptyMap) else c;
          var m := Map(Put(es1, k, Map(c')));
          assert [Field(k), Field(I(j))][1..] == [Field(I(j))] && [Field(I(j))][1..] == [];
          assert Child(m, Field(k)) == Some(Map(c'));
          assert At(Map(c'), [Field(I(j))]) == At(Lookup(c', I(j)).value, []);
          Ok((m, [Field(k), Field(I(j))]))
      case Scalar(Str(s)) =>
        if j < |s| then
          assert [Field(k)][1..] == [];
          Ok((Map(es1), [Field(k)]))
        else Raises
      case _ => Raises
  }

  /** What `set_nested_value` does to the node its cursor stands on, given the
      pieces still to come; as in main7.py, except for the steps above. */
  function Walk(n: Node, parts: seq<string>, v: Node): (r: Result<Node>)
    ensures !n.Map? ==> r == if AnyMatch(parts) then Raises else Ok(n)
    ensures n.Map? && r.Ok? ==> r.value.Map?
    decreases |parts|
  {
    if parts == [] then Ok(n)
    else match MatchToken(parts[0])
      case None => Walk(n, parts[1..], v)
      case Some(tok) =>
        if !n.Map? then Raises
        else if |parts| == 1 then
          match WriteLast(n.entries, tok, v)
          case Raises => Raises
          case Ok(es) => Ok(Map(es))
        else
          match Prepare(n.entries, tok)
          case Raises => Raises
          case Ok((m, steps)) => PlugResult(m, steps, Walk(At(m, steps).value, parts[1..], v))
  }

  /** The branch of `set_nested_value` for the last piece. */
  method AssignLast(es: Entries, tok: Token, value: Node) returns (r: Result<Entries>)
    ensures r == WriteLast(es, tok, value)
  {
    var key := S(tok.name);
    if tok.index.None? {
      return Ok(Put(es, key, value));
    }
    var j := tok.index.value;
    var (es1, child) := Setdefault(es, key, List([]));
    if child.List? {
      var xs := PadList(child.items, j + 1, Null);
      xs := xs[j := value];
      r := Ok(Put(es1, key, List(xs)));
    } else if child.Map? && j < |child.entries| {
      r := Ok(Put(es1, key, Map(Put(child.entries, I(j), value))));
    } else {
      r := Raises;
    }
  }

  /** The branch of `set_nested_value` for an inner piece. */
  method PrepareChild(es: Entries, tok: Token) returns (r: Result<(Node, seq<Step>)>)
    ensures r == Prepare(es, tok)
  {
    var key := S(tok.name);
    if tok.index.None? {
      var (es1, _) := Setdefault(es, key, EmptyMap);
      return Ok((Map(es1), [Field(key)]));
    }
    var j := tok.index.value;
    var (es1, child) := Setdefault(es, key, List([]));
    match child
    case List(items) =>
      var xs := PadList(items, j + 1, EmptyMap);
      if xs[j] == Null {
        xs := xs[j := EmptyMap];
      }
      r := Ok((Map(Put(es1, key, List(xs))), [Field(key), Slot(j)]));
    case Map(c) =>
      if j >= |c| || !Has(c, I(j)) {
        r := Raises;
      } else {
        var c' := c;
        if Lookup(c, I(j)).value == Null {
          c' := Put(c, I(j), EmptyMap);
        }
        r := Ok((Map(Put(es1, key, Map(c'))), [Field(key), Field(I(j))]));
      }
    case Scalar(x) =>
      if x.Str? && j < |x.s| {
        r := Ok((Map(es1), [Field(key)]));
      } else {
        r := Raises;
      }
    case Null =>
      r := Raises;
  }

  /** One step of the walk at a time, as the loop below takes them. */
  lemma WalkSkips(n: Node, parts: seq<string>, v: Node)
    requires parts != [] && MatchToken(parts[0]).None?
    ensures Walk(n, parts, v) == Walk(n, parts[1..], v)
  {
  }

  lemma WalkWritesLast(n: Node, parts: seq<string>, v: Node)
    requires |parts| == 1 && n.Map? && MatchToken(parts[0]).Some?
    ensures var w := WriteLast(n.entries, MatchToken(parts[0]).value, v);
      Walk(n, parts, v) == if w.Raises? then Raises else Ok(Map(w.value))
  {
  }

  lemma WalkDescends(n: Node, parts: seq<string>, v: Node)
    requires |parts| > 1 && n.Map? && MatchToken(parts[0]).Some?
    ensures var p := Prepare(n.entries, MatchToken(parts[0]).value);
      Walk(n, parts, v) == if p.Raises? then Raises
        else PlugResult(p.value.0, p.value.1, Walk(At(p.value.0, p.value.1).value, parts[1..], v))
  {
  }

  lemma LastStep(t: Node, cur: seq<Step>, x: Node, v: Node)
    requires At(t, cur).Some?
    ensures At(Plug(t, cur, x), cur).Some?
    ensures PlugResult(Plug(t, cur, x), cur, Walk(At(Plug(t, cur, x), cur).value, [], v)) == Ok(Plug(t, cur, x))
  {
    PlugAt(t, cur, x);
    PlugSelf(Plug(t, cur, x), cur);
  }

  lemma InnerStep(t: Node, cur: seq<Step>, m: Node, steps: seq<Step>, rest: seq<string>, v: Node)
    requires At(t, cur).Some? && At(m, steps).Some?
    ensures At(Plug(t, cur, m), cur + steps).Some?
    ensures PlugResult(Plug(t, cur, m), cur + steps, Walk(At(Plug(t, cur, m), cur + steps).value, rest, v))
         == PlugResult(t, cur, PlugResult(m, steps, Walk(At(m, steps).value, rest, v)))
  {
    var w := Walk(At(m, steps).value, rest, v);
    Descend(t, cur, m, steps, if w.Ok? then w.value else m);
  }

  /** One turn of the loop of `set_nested_value`, on the pieces from the
      current one on: the tree and cursor it leaves behind, or the exception. */
  method SetPiece(t: Node, cur: seq<Step>, parts: seq<string>, value: Node) returns (r: Result<(Node, seq<Step>)>)
    requires At(t, cur).Some? && parts != []
    ensures r.Raises? ==> PlugResult(t, cur, Walk(At(t, cur).value, parts, value)) == Raises
    ensures r.Ok? ==> At(r.value.0, r.value.1).Some?
    ensures r.Ok? ==>
      PlugResult(r.value.0, r.value.1, Walk(At(r.value.0, r.value.1).value, parts[1..], value)) ==
      PlugResult(t, cur, Walk(At(t, cur).value, parts, value))
  {
    var current := At(t, cur).value;
    var m := MatchToken(parts[0]);
    if m.None? {
      WalkSkips(current, parts, value);
      return Ok((t, cur));
    }
    if !current.Map? {
      return Raises;
    }
    if |parts| == 1 {
      var w := AssignLast(current.entries, m.value, value);
      WalkWritesLast(current, parts, value);
      if w.Raises? {
        return Raises;
      }
      LastStep(t, cur, Map(w.value), value);
      r := Ok((Plug(t, cur, Map(w.value)), cur));
    } else {
      var p := PrepareChild(current.entries, m.value);
      WalkDescends(current, parts, value);
      if p.Raises? {
        return Raises;
      }
      var (next, steps) := p.value;
      InnerStep(t, cur, next, steps, parts[1..], value);
      r := Ok((Plug(t, cur, next), cur + steps));
    }
  }

  /** `set_nested_value(d, key_str, value)`, with the dict `d` passed in and its
      new contents handed back. */
  method SetNestedValue(d: Node, keyStr: string, value: Node) returns (r: Result<Node>)
    ensures r == Walk(d, Split(keyStr, '.'), value)
  {
    var parts := Split(keyStr, '.');
    var t, cur, rest := d, [], parts;
    while rest != []
      invariant At(t, cur).Some?
      invariant PlugResult(t, cur, Walk(At(t, cur).value, rest, value)) == Walk(d, parts, value)
      decreases |rest|
    {
      var next := SetPiece(t, cur, rest, value);
      if next.Raises? {
        return Raises;
      }
      t, cur, rest := next.value.0, next.value.1, rest[1..];
    }
    PlugSelf(t, cur);
    r := Ok(t);
  }

  // ---------------------------------------------------------------------------
  // Properties of the builder

  /** Every child the path passes through is absent or already of the kind
      the piece asks for (a dict for `k`, a list for `k[j]`), so keeping it and
      replacing it come to the same thing. */
  predicate Conforms(n: Node, parts: seq<string>)
    decreases |parts|
  {
    if parts == [] || !n.Map? then true
    else match MatchToken(parts[0])
      case None => Conforms(n, parts[1..])
      case Some(tok) =>
        var child := Lookup(n.entries, S(tok.name));
        if |parts| == 1 then tok.index.None? || child.None? || child.value.List?
        else
          (child.None? || (if tok.index.None? then child.value.Map? else child.value.List?)) &&
          var (m, steps) := OB.Prepare(n.entries, tok);
          Conforms(At(m, steps).value, parts[1..])
  }

  lemma PrepareAgrees(es: Entries, tok: Token)
    requires var child := Lookup(es, S(tok.name));
      child.None? || (if tok.index.None? then child.value.Map? else child.value.List?)
    ensures Prepare(es, tok) == Ok(OB.Prepare(es, tok))
  {
    var k := S(tok.name);
    if tok.index.Some? && !Has(es, k) {
      PutPut(es, k, List([]), List(Padded([], tok.index.value + 1, EmptyMap)));
    }
  }

  lemma WriteLastAgrees(es: Entries, tok: Token, v: Node)
    requires var child := Lookup(es, S(tok.name));
      tok.index.None? || child.None? || child.value.List?
    ensures WriteLast(es, tok, v) == Ok(OB.WriteLast(es, tok, v))
  {
    var k := S(tok.name);
    if tok.index.Some? {
      var j := tok.index.value;
      var xs := OB.ListAt(es, k);
      var w := List(Padded(xs, j + 1, Null)[j := v]);
      OB.SlotWrite(es, tok.name, j, v);
      if Has(es, k) {
        assert Setdefault(es, k, List([])) == (es, List(xs));
        assert WriteLast(es, tok, v) == Ok(Put(es, k, w));
      } else {
        assert Setdefault(es, k, List([])) == (Put(es, k, List([])), List([]));
        assert WriteLast(es, tok, v) == Ok(Put(Put(es, k, List([])), k, w));
        PutPut(es, k, List([]), w);
      }
    }
  }

  /** On a tree that already has the shape the path asks for, or none of it,
      the keeping builder of main8.py and main11.py and the replacing builder
      of main4.py and main7.py produce the same tree. */
  lemma {:induction false} AgreesWithOverwrite(n: Node, parts: seq<string>, v: Node)
    requires Conforms(n, parts)
    ensures Walk(n, parts, v) == OB.Walk(n, parts, v)
    decreases |parts|
  {
    if parts != [] && n.Map? {
      match MatchToken(parts[0])
      case None => AgreesWithOverwrite(n, parts[1..], v);
      case Some(tok) =>
        if |parts| == 1 {
          WriteLastAgrees(n.entries, tok, v);
        } else {
          PrepareAgrees(n.entries, tok);
          var (m, steps) := OB.Prepare(n.entries, tok);
          AgreesWithOverwrite(At(m, steps).value, parts[1..], v);
        }
    }
  }

  /** The replacing builder leaves the path in the shape it asks for. */
  lemma {:induction false} OverwriteConforms(n: Node, parts: seq<string>, v: Node)
    requires OB.Walk(n, parts, v).Ok?
    ensures Conforms(OB.Walk(n, parts, v).value, parts)
    decreases |parts|
  {
    if parts != [] && n.Map? {
      match MatchToken(parts[0])
      case None => OverwriteConforms(n, parts[1..], v);
      case Some(tok) =>
        if |parts| > 1 {
          var (m, steps) := OB.Prepare(n.entries, tok);
          OverwriteConforms(At(m, steps).value, parts[1..], v);
          ConformsAfterPrepare(n.entries, tok, parts, OB.Walk(At(m, steps).value, parts[1..], v).value);
        }
    }
  }

  /** One inner piece of the replacing builder: once the rest of the path
      conforms below the child, the whole path conforms. */
  lemma ConformsAfterPrepare(es: Entries, tok: Token, parts: seq<string>, c1: Node)
    requires |parts| > 1 && MatchToken(parts[0]) == Some(tok)
    requires c1 != Null && (tok.index.None? ==> c1.Map?)
    requires Conforms(c1, parts[1..])
    ensures Conforms(Plug(OB.Prepare(es, tok).0, OB.Prepare(es, tok).1, c1), parts)
  {
    var (m, steps) := OB.Prepare(es, tok);
    OB.PrepareAgain(es, tok, c1);
    PlugAt(m, steps, c1);
    var r := Plug(m, steps, c1);
    var k := S(tok.name);
    assert Child(m, Field(k)).Some?;
    assert r == Map(Put(m.entries, k, Plug(Child(m, Field(k)).value, steps[1..], c1)));
    assert Lookup(r.entries, k).Some?;
    match tok.index
    case None =>
      assert steps[1..] == [];
    case Some(j) =>
      assert steps[1..] == [Slot(j)];
  }

  /** Writing on a tree of the right shape, then reading back: the value sits
      at the address the path names. */
  lemma RoundTrip(n: Node, parts: seq<string>, v: Node)
    requires Conforms(n, parts)
    requires parts != [] && MatchToken(parts[|parts| - 1]).Some?
    requires Walk(n, parts, v).Ok?
    ensures At(Walk(n, parts, v).value, OB.PathSteps(parts)) == Some(v)
  {
    AgreesWithOverwrite(n, parts, v);
    OB.RoundTrip(n, parts, v);
  }

  /** Two successful writes of the same last piece: the second wins. */
  lemma WriteLastTwice(es: Entries, tok: Token, a: Node, b: Node)
    requires WriteLast(es, tok, a).Ok?
    ensures WriteLast(WriteLast(es, tok, a).value, tok, b) == WriteLast(es, tok, b)
  {
    var k := S(tok.name);
    if tok.index.None? {
      PutPut(es, k, a, b);
    } else if Setdefault(es, k, List([])).1.List? {
      WriteLastTwiceList(es, tok, a, b);
    } else {
      WriteLastTwiceKey(es, tok, a, b);
    }
  }

  lemma WriteLastTwiceList(es: Entries, tok: Token, a: Node, b: Node)
    requires tok.index.Some? && Setdefault(es, S(tok.name), List([])).1.List?
    ensures WriteLast(es, tok, a).Ok?
    ensures WriteLast(WriteLast(es, tok, a).value, tok, b) == WriteLast(es, tok, b)
  {
    var k, j := S(tok.name), tok.index.value;
    var (es1, child) := Setdefault(es, k, List([]));
    var ys := Padded(child.items, j + 1, Null);
    var r1 := Put(es1, k, List(ys[j := a]));
    assert WriteLast(es, tok, a) == Ok(r1);
    assert Setdefault(r1, k, List([])) == (r1, List(ys[j := a]));
    assert Padded(ys[j := a], j + 1, Null) == ys[j := a];
    assert ys[j := a][j := b] == ys[j := b];
    assert WriteLast(r1, tok, b) == Ok(Put(r1, k, List(ys[j := b])));
    PutPut(es1, k, List(ys[j := a]), List(ys[j := b]));
  }

  lemma WriteLastTwiceKey(es: Entries, tok: Token, a: Node, b: Node)
    requires tok.index.Some? && Setdefault(es, S(tok.name), List([])).1.Map?
    requires WriteLast(es, tok, a).Ok?
    ensures WriteLast(WriteLast(es, tok, a).value, tok, b) == WriteLast(es, tok, b)
  {
    var k, j := S(tok.name), tok.index.value;
    var (es1, child) := Setdefault(es, k, List([]));
    var c := child.entries;
    assert j < |c|;
    var r1 := Put(es1, k, Map(Put(c, I(j), a)));
    assert WriteLast(es, tok, a) == Ok(r1);
    assert Setdefault(r1, k, List([])) == (r1, Map(Put(c, I(j), a)));
    assert |KeysOf(Put(c, I(j), a))| >= |KeysOf(c)|;
    PutPut(c, I(j), a, b);
    assert WriteLast(r1, tok, b) == Ok(Put(r1, k, Map(Put(c, I(j), b))));
    PutPut(es1, k, Map(Put(c, I(j), a)), Map(Put(c, I(j), b)));
  }

  /** After an inner piece has been walked once, walking it again finds the
      same child and reaches the same place, provided what was built below
      keeps the kind of the node the cursor reached (a dict stays a dict,
      anything else is left as it is). */
  lemma PrepareAgain(es: Entries, tok: Token, c1: Node)
    requires Prepare(es, tok).Ok?
    requires var c := At(Prepare(es, tok).value.0, Prepare(es, tok).value.1).value;
      if c.Map? then c1.Map? else c1 == c
    ensures var (m, steps) := Prepare(es, tok).value;
      Plug(m, steps, c1).Map? && Prepare(Plug(m, steps, c1).entries, tok) == Ok((Plug(m, steps, c1), steps))
  {
    var k := S(tok.name);
    if tok.index.None? {
      PrepareAgainField(es, tok, c1);
    } else if Setdefault(es, k, List([])).1.List? {
      PrepareAgainSlot(es, tok, c1);
    } else if Setdefault(es, k, List([])).1.Map? {
      PrepareAgainKey(es, tok, c1);
    } else {
      PrepareAgainText(es, tok, c1);
    }
  }

  lemma PrepareAgainField(es: Entries, tok: Token, c1: Node)
    requires tok.index.None?
    ensures var (m, steps) := Prepare(es, tok).value;
      Plug(m, steps, c1).Map? && Prepare(Plug(m, steps, c1).entries, tok) == Ok((Plug(m, steps, c1), steps))
  {
    var k := S(tok.name);
    var es1 := Setdefault(es, k, EmptyMap).0;
    assert Prepare(es, tok) == Ok((Map(es1), [Field(k)]));
    assert [Field(k)][1..] == [];
    var n1 := Map(Put(es1, k, c1));
    assert Plug(Map(es1), [Field(k)], c1) == n1;
    assert Setdefault(n1.entries, k, EmptyMap).0 == n1.entries;
  }

  lemma PrepareAgainText(es: Entries, tok: Token, c1: Node)
    requires tok.index.Some? && Prepare(es, tok).Ok?
    requires var child := Setdefault(es, S(tok.name), List([])).1; !child.List? && !child.Map?
    requires c1 == At(Prepare(es, tok).value.0, Prepare(es, tok).value.1).value
    ensures var (m, steps) := Prepare(es, tok).value;
      Plug(m, steps, c1).Map? && Prepare(Plug(m, steps, c1).entries, tok) == Ok((Plug(m, steps, c1), steps))
  {
    var k := S(tok.name);
    assert Prepare(es, tok) == Ok((Map(es), [Field(k)]));
    assert [Field(k)][1..] == [];
    PutSame(es, k);
    assert Plug(Map(es), [Field(k)], c1) == Map(es);
  }

  lemma PrepareAgainSlot(es: Entries, tok: Token, c1: Node)
    requires tok.index.Some? && Setdefault(es, S(tok.name), List([])).1.List?
    requires var c := At(Prepare(es, tok).value.0, Prepare(es, tok).value.1).value;
      if c.Map? then c1.Map? else c1 == c
    ensures var (m, steps) := Prepare(es, tok).value;
      Plug(m, steps, c1).Map? && Prepare(Plug(m, steps, c1).entries, tok) == Ok((Plug(m, steps, c1), steps))
  {
    var k, j := S(tok.name), tok.index.value;
    var (es1, child) := Setdefault(es, k, List([]));
    var xs0 := Padded(child.items, j + 1, EmptyMap);
    var xs := if xs0[j] == Null then xs0[j := EmptyMap] else xs0;
    PreparedSlot(es, tok);
    PreparedSlotAgain(es1, tok, xs, c1);
  }

  /** The first walk through `key[j]` on a list child (or a missing one). */
  lemma PreparedSlot(es: Entries, tok: Token)
    requires tok.index.Some? && Setdefault(es, S(tok.name), List([])).1.List?
    ensures var k, j := S(tok.name), tok.index.value;
      var (es1, child) := Setdefault(es, k, List([]));
      var xs0 := Padded(child.items, j + 1, EmptyMap);
      var xs := if xs0[j] == Null then xs0[j := EmptyMap] else xs0;
      var m, steps := Map(Put(es1, k, List(xs))), [Field(k), Slot(j)];
      Prepare(es, tok) == Ok((m, steps)) && j < |xs| && xs[j] != Null && At(m, steps) == Some(xs[j])
  {
    var k, j := S(tok.name), tok.index.value;
    var (es1, child) := Setdefault(es, k, List([]));
    var xs0 := Padded(child.items, j + 1, EmptyMap);
    var xs := if xs0[j] == Null then xs0[j := EmptyMap] else xs0;
    var m := Map(Put(es1, k, List(xs)));
    var steps := [Field(k), Slot(j)];
    assert Prepare(es, tok) == Ok((m, steps));
    assert steps[1..] == [Slot(j)] && steps[1..][1..] == [];
    assert Child(m, Field(k)) == Some(List(xs));
    assert At(List(xs), [Slot(j)]) == At(xs[j], []);
  }

  /** The second walk through `key[j]`, once slot `j` holds `c1`. */
  lemma PreparedSlotAgain(es1: Entries, tok: Token, xs: seq<Node>, c1: Node)
    requires tok.index.Some? && tok.index.value < |xs| && xs[tok.index.value] != Null
    requires if xs[tok.index.value].Map? then c1.Map? else c1 == xs[tok.index.value]
    ensures var k, j := S(tok.name), tok.index.value;
      var m, steps := Map(Put(es1, k, List(xs))), [Field(k), Slot(j)];
      At(m, steps) == Some(xs[j]) && Plug(m, steps, c1).Map? && Prepare(Plug(m, steps, c1).entries, tok) == Ok((Plug(m, steps, c1), steps))
  {
    var k, j := S(tok.name), tok.index.value;
    var m, steps := Map(Put(es1, k, List(xs))), [Field(k), Slot(j)];
    assert steps[1..] == [Slot(j)] && steps[1..][1..] == [];
    assert Child(m, Field(k)) == Some(List(xs));
    assert At(List(xs), [Slot(j)]) == At(xs[j], []);
    var ys := xs[j := c1];
    assert Plug(List(xs), [Slot(j)], c1) == List(ys);
    var n1 := Map(Put(m.entries, k, List(ys)));
    assert Plug(m, steps, c1) == n1;
    assert Lookup(n1.entries, k) == Some(List(ys));
    assert Setdefault(n1.entries, k, List([])) == (n1.entries, List(ys));
    assert Padded(ys, j + 1, EmptyMap) == ys;
    assert ys[j] == c1 && c1 != Null;
    PutSame(n1.entries, k);
    assert Put(n1.entries, k, List(ys)) == n1.entries;
    assert Child(n1, Field(k)) == Some(List(ys));
    assert At(List(ys), [Slot(j)]) == At(ys[j], []);
  }

  lemma PrepareAgainKey(es: Entries, tok: Token, c1: Node)
    requires tok.index.Some? && Setdefault(es, S(tok.name), List([])).1.Map? && Prepare(es, tok).Ok?
    requires var c := At(Prepare(es, tok).value.0, Prepare(es, tok).value.1).value;
      if c.Map? then c1.Map? else c1 == c
    ensures var (m, steps) := Prepare(es, tok).value;
      Plug(m, steps, c1).Map? && Prepare(Plug(m, steps, c1).entries, tok) == Ok((Plug(m, steps, c1), steps))
  {
    var k, j := S(tok.name), tok.index.value;
    var (es1, child) := Setdefault(es, k, List([]));
    var c := child.entries;
    var c' := if Lookup(c, I(j)).value == Null then Put(c, I(j), EmptyMap) else c;
    PreparedKey(es, tok);
    var m := Map(Put(es1, k, Map(c')));
    var steps := [Field(k), Field(I(j))];
    var c'' := Put(c', I(j), c1);
    assert steps[1..] == [Field(I(j))] && steps[1..][1..] == [];
    assert Child(m, Field(k)) == Some(Map(c'));
    assert Plug(Map(c'), [Field(I(j))], c1) == Map(c'');
    var n1 := Map(Put(m.entries, k, Map(c'')));
    assert Plug(m, steps, c1) == n1;
    PreparedKeyAgain(es1, tok, c', c1);
  }

  /** The first walk through `key[j]` on a dict child. */
  lemma PreparedKey(es: Entries, tok: Token)
    requires tok.index.Some? && Setdefault(es, S(tok.name), List([])).1.Map? && Prepare(es, tok).Ok?
    ensures var k, j := S(tok.name), tok.index.value;
      var (es1, child) := Setdefault(es, k, List([]));
      var c := child.entries;
      j < |c| && Has(c, I(j)) &&
      var c' := if Lookup(c, I(j)).value == Null then Put(c, I(j), EmptyMap) else c;
      Prepare(es, tok) == Ok((Map(Put(es1, k, Map(c'))), [Field(k), Field(I(j))])) &&
      |c'| >= |c| && Has(c', I(j)) && Lookup(c', I(j)).value != Null &&
      At(Map(Put(es1, k, Map(c'))), [Field(k), Field(I(j))]) == Some(Lookup(c', I(j)).value)
  {
    var k, j := S(tok.name), tok.index.value;
    var (es1, child) := Setdefault(es, k, List([]));
    var c := child.entries;
    var c' := if Lookup(c, I(j)).value == Null then Put(c, I(j), EmptyMap) else c;
    var m := Map(Put(es1, k, Map(c')));
    assert |KeysOf(c')| >= |KeysOf(c)|;
    assert [Field(k), Field(I(j))][1..] == [Field(I(j))] && [Field(I(j))][1..] == [];
    assert Child(m, Field(k)) == Some(Map(c'));
    assert At(Map(c'), [Field(I(j))]) == At(Lookup(c', I(j)).value, []);
  }

  /** The second walk through `key[j]`, once slot `j` of the dict child holds `c1`. */
  lemma PreparedKeyAgain(es1: Entries, tok: Token, c': Entries, c1: Node)
    requires tok.index.Some? && |c'| > tok.index.value && Has(c', I(tok.index.value)) && c1 != Null
    ensures var k, j := S(tok.name), tok.index.value;
      var n1 := Put(Put(es1, k, Map(c')), k, Map(Put(c', I(j), c1)));
      Prepare(n1, tok) == Ok((Map(n1), [Field(k), Field(I(j))]))
  {
    var k, j := S(tok.name), tok.index.value;
    var c'' := Put(c', I(j), c1);
    var n1 := Put(Put(es1, k, Map(c')), k, Map(c''));
    assert |KeysOf(c'')| >= |KeysOf(c')|;
    assert Setdefault(n1, k, List([])) == (n1, Map(c''));
    PutSame(n1, k);
  }

  /** The inner piece of LastWriteWins: once the second write below the child
      comes to the second one alone, so does the second write of the whole path. */
  lemma WriteAgainStep(n: Node, parts: seq<string>, tok: Token, v1: Node, v2: Node)
    requires n.Map? && |parts| > 1 && MatchToken(parts[0]) == Some(tok) && Prepare(n.entries, tok).Ok?
    requires var (m, steps) := Prepare(n.entries, tok).value;
      var c := At(m, steps).value;
      Walk(c, parts[1..], v1).Ok? &&
      Walk(Walk(c, parts[1..], v1).value, parts[1..], v2) == Walk(c, parts[1..], v2)
    ensures Walk(n, parts, v1).Ok?
    ensures Walk(Walk(n, parts, v1).value, parts, v2) == Walk(n, parts, v2)
  {
    var (m, steps) := Prepare(n.entries, tok).value;
    var c := At(m, steps).value;
    var c1 := Walk(c, parts[1..], v1).value;
    WalkDescends(n, parts, v1);
    WalkDescends(n, parts, v2);
    PrepareAgain(n.entries, tok, c1);
    var n1 := Plug(m, steps, c1);
    WalkDescends(n1, parts, v2);
    PlugAt(m, steps, c1);
    var w := Walk(c, parts[1..], v2);
    if w.Ok? {
      PlugPlug(m, steps, c1, w.value);
    }
  }

  /** Writing `v1` and then `v2` at the same path leaves what writing `v2`
      alone leaves, on any tree the first write succeeds on: keeping an
      existing child, even one of the wrong kind, does not stop the later
      write from winning. */
  lemma {:induction false} LastWriteWins(n: Node, parts: seq<string>, v1: Node, v2: Node)
    requires Walk(n, parts, v1).Ok?
    ensures Walk(Walk(n, parts, v1).value, parts, v2) == Walk(n, parts, v2)
    decreases |parts|
  {
    if parts != [] {
      var rest := parts[1..];
      match MatchToken(parts[0])
      case None => LastWriteWins(n, rest, v1, v2);
      case Some(tok) =>
        if |parts| == 1 {
          WriteLastTwice(n.entries, tok, v1, v2);
        } else {
          var (m, steps) := Prepare(n.entries, tok).value;
          LastWriteWins(At(m, steps).value, rest, v1, v2);
          WriteAgainStep(n, parts, tok, v1, v2);
        }
    }
  }

  /** Two final writes into different slots of a list, or of a list not
      there yet, leave the same tree in either order, as in main7.py. (On a
      dict child the two int keys are added in the order the writes arrive.) */
  lemma SlotWritesCommute(es: Entries, name: string, i: nat, j: nat, vi: Node, vj: Node)
    requires i != j
    requires Lookup(es, S(name)).None? || Lookup(es, S(name)).value.List?
    ensures WriteLast(es, Token(name, Some(i)), vi).Ok? && WriteLast(es, Token(name, Some(j)), vj).Ok?
    ensures WriteLast(WriteLast(es, Token(name, Some(i)), vi).value, Token(name, Some(j)), vj) ==
            WriteLast(WriteLast(es, Token(name, Some(j)), vj).value, Token(name, Some(i)), vi)
  {
    var ti, tj := Token(name, Some(i)), Token(name, Some(j));
    WriteLastAgrees(es, ti, vi);
    WriteLastAgrees(es, tj, vj);
    WriteLastAgrees(OB.WriteLast(es, ti, vi), tj, vj);
    WriteLastAgrees(OB.WriteLast(es, tj, vj), ti, vi);
    OB.SlotWritesCommute(es, name, i, j, vi, vj);
  }

  /** As in main7.py, a final write `k[j]` and an inner piece `k[i]`
      (`i < j`) on a new list leave slot 0 `None` or `{}` depending on which
      arrives first. */
  lemma MixedArrivalHoles(es: Entries, name: string, i: nat, j: nat, v: Node)
    requires 0 < i < j && !Has(es, S(name))
    ensures var fin, inner := Token(name, Some(j)), Token(name, Some(i));
      WriteLast(es, fin, v).Ok? && Prepare(WriteLast(es, fin, v).value, inner).Ok? &&
      Prepare(es, inner).Ok? && WriteLast(Prepare(es, inner).value.0.entries, fin, v).Ok? &&
      OB.ListAt(Prepare(WriteLast(es, fin, v).value, inner).value.0.entries, S(name)) != [] &&
      OB.ListAt(Prepare(WriteLast(es, fin, v).value, inner).value.0.entries, S(name))[0] == Null &&
      OB.ListAt(WriteLast(Prepare(es, inner).value.0.entries, fin, v).value, S(name)) != [] &&
      OB.ListAt(WriteLast(Prepare(es, inner).value.0.entries, fin, v).value, S(name))[0] == EmptyMap
  {
    var fin, inner := Token(name, Some(j)), Token(name, Some(i));
    WriteLastAgrees(es, fin, v);
    PrepareAgrees(es, inner);
    PrepareAgrees(OB.WriteLast(es, fin, v), inner);
    WriteLastAgrees(OB.Prepare(es, inner).0.entries, fin, v);
    OB.MixedArrivalHoles(es, name, i, j, v);
  }

  /** An inner piece never replaces the child it finds: a dict stays a dict, a
      list a list, and a scalar or `None` stays exactly as it was. */
  lemma KeepsExistingChild(es: Entries, p: string, rest: seq<string>, v: Node)
    requires MatchToken(p).Some? && rest != []
    requires Has(es, S(MatchToken(p).value.name))
    requires Walk(Map(es), [p] + rest, v).Ok?
    ensures var k := S(MatchToken(p).value.name);
      var before := Lookup(es, k).value;
      var after := Lookup(Walk(Map(es), [p] + rest, v).value.entries, k).value;
      after.Map? == before.Map? && after.List? == before.List? &&
      (before.Scalar? || before.Null? ==> after == before)
  {
    var parts := [p] + rest;
    assert parts[0] == p && parts[1..] == rest;
    var tok := MatchToken(p).value;
    WalkDescends(Map(es), parts, v);
    var (m, steps) := Prepare(es, tok).value;
    PlugKeepsKind(es, tok, Walk(At(m, steps).value, rest, v).value);
  }

  /** The child under the piece's key, once the rest of the path has rebuilt
      the node the cursor points at (a dict stays a dict, anything else is
      left as it is). */
  lemma PlugKeepsKind(es: Entries, tok: Token, c1: Node)
    requires Has(es, S(tok.name)) && Prepare(es, tok).Ok?
    requires var c := At(Prepare(es, tok).value.0, Prepare(es, tok).value.1).value;
      if c.Map? then c1.Map? else c1 == c
    ensures var k := S(tok.name);
      var before := Lookup(es, k).value;
      var after := Lookup(Plug(Prepare(es, tok).value.0, Prepare(es, tok).value.1, c1).entries, k).value;
      after.Map? == before.Map? && after.List? == before.List? &&
      (before.Scalar? || before.Null? ==> after == before)
  {
    var (m, steps) := Prepare(es, tok).value;
    var k := S(tok.name);
    assert Child(m, Field(k)).Some?;
    assert Plug(m, steps, c1) == Map(Put(m.entries, k, Plug(Child(m, Field(k)).value, steps[1..], c1)));
    var before := Lookup(es, k).value;
    match tok.index
    case None =>
      assert steps[1..] == [];
    case Some(j) =>
      match before
      case List(_) =>
      case Map(_) =>
      case Scalar(_) =>
        assert steps[1..] == [];
        PutSame(es, k);
      case Null =>
  }

  /** With `setdefault`, a scalar already at an inner key stays, and the next
      matching piece has no dict to work on: the write fails. */
  lemma ScalarChildBlocks(es: Entries, p: string, rest: seq<string>, v: Node)
    requires MatchToken(p).Some? && MatchToken(p).value.index.None?
    requires var child := Lookup(es, S(MatchToken(p).value.name)); child.Some? && child.value.Scalar?
    requires AnyMatch(rest)
    ensures Walk(Map(es), [p] + rest, v) == Raises
  {
    assert ([p] + rest)[0] == p && ([p] + rest)[1..] == rest;
    WalkDescends(Map(es), [p] + rest, v);
    var tok := MatchToken(p).value;
    assert [Field(S(tok.name))][1..] == [];
  }
}
