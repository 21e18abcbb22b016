/** `set_nested_value` of main4.py (lines 35-74) and main7.py (lines 32-68), which
    are the same function: it writes a value at a dotted path, creating the
    dicts and lists on the way and REPLACING a child of the wrong kind. */
module OverwriteBuilder {
  import opened PyValues
  import opened Tree
  import opened Address
  import opened PathToken

  /** The list held at `k`, or `[]` when `k` is absent or holds anything else
      (the builder then replaces that child by a new list). */
  function ListAt(es: Entries, k: Key): seq<Node> {
    match Lookup(es, k)
    case Some(List(xs)) => xs
    case _ => []
  }

  /** The last piece: `k = value`, or for `k[j]` a list at `k`, padded with
      `None`, whose slot `j` is the value. */
  function WriteLast(es: Entries, tok: Token, v: Node): (r: Entries)
    ensures forall k :: k != S(tok.name) ==> Lookup(r, k) == Lookup(es, k)
    ensures KeysOf(r) == if Has(es, S(tok.name)) then KeysOf(es) else KeysOf(es) + [S(tok.name)]
    ensures tok.index.None? ==> Lookup(r, S(tok.name)) == Some(v)
    ensures tok.index.Some? ==>
      var j, was := tok.index.value, ListAt(es, S(tok.name));
      Lookup(r, S(tok.name)).Some? && Lookup(r, S(tok.name)).value.List? &&
      var xs := Lookup(r, S(tok.name)).value.items;
      |xs| == (if |was| <= j then j + 1 else |was|) && xs[j] == v &&
      (forall i :: 0 <= i < |xs| && i != j ==> xs[i] == if i < |was| then was[i] else Null)
  {
    var k := S(tok.name);
    match tok.index
    case None => Put(es, k, v)
    case Some(j) => Put(es, k, List(Padded(ListAt(es, k), j + 1, Null)[j := v]))
  }

  /** An inner piece: the dict after the child at `k` has been made ready, and
      the steps from that dict to where the cursor goes next. `k` must hold a
      dict (else it becomes `{}`); `k[j]` must hold a list (else it becomes
      `[]`), which is padded with `{}` and whose `None` slot `j` becomes `{}`. */
  function Prepare(es: Entries, tok: Token): (r: (Node, seq<Step>))
    ensures r.0.Map? && At(r.0, r.1).Some? && At(r.0, r.1).value != Null
    ensures forall k :: k != S(tok.name) ==> Lookup(r.0.entries, k) == Lookup(es, k)
    ensures KeysOf(r.0.entries) == if Has(es, S(tok.name)) then KeysOf(es) else KeysOf(es) + [S(tok.name)]
    ensures tok.index.None? ==>
      r.1 == [Field(S(tok.name))] && At(r.0, r.1).value.Map? &&
      (Lookup(es, S(tok.name)).Some? && Lookup(es, S(tok.name)).value.Map? ==> r.0 == Map(es))
    ensures tok.index.Some? ==>
      var j, was := tok.index.value, ListAt(es, S(tok.name));
      r.1 == [Field(S(tok.name)), Slot(j)] &&
      Lookup(r.0.entries, S(tok.name)).Some? && Lookup(r.0.entries, S(tok.name)).value.List? &&
      var xs := Lookup(r.0.entries, S(tok.name)).value.items;
      |xs| == (if |was| <= j then j + 1 else |was|) && At(r.0, r.1) == Some(xs[j]) &&
      xs[j] == (if j < |was| && was[j] != Null then was[j] else EmptyMap) &&
      (forall i :: 0 <= i < |xs| && i != j ==> xs[i] == if i < |was| then was[i] else EmptyMap)
  {
    var k := S(tok.name);
    match tok.index
    case None =>
      if Lookup(es, k).Some? && Lookup(es, k).value.Map? then (Map(es), [Field(k)])
      else (Map(Put(es, k, EmptyMap)), [Field(k)])
    case Some(j) =>
      var xs := Padded(ListAt(es, k), j + 1, EmptyMap);
      var xs' := if xs[j] == Null then xs[j := EmptyMap] else xs;
      var m := Map(Put(es, k, List(xs')));
      assert [Field(k), Slot(j)][1..] == [Slot(j)] && [Slot(j)][1..] == [];
      assert Child(m, Field(k)) == Some(List(xs'));
      assert At(List(xs'), [Slot(j)]) == At(xs'[j], []);
      (m, [Field(k), Slot(j)])
  }

  /** What `set_nested_value` does to the node its cursor stands on, given the
      pieces still to come: a piece that does not match is skipped, a matching
      piece at a cursor that is not a dict raises, the piece in last position
      writes the value, any other piece moves the cursor down. */
  function Walk(n: Node, parts: seq<string>, v: Node): (r: Result<Node>)
    ensures !n.Map? ==> r == if AnyMatch(parts) then Raises else Ok(n)
    ensures n.Map? && r.Ok? ==> r.value.Map?
    decreases |parts|
  {
    if parts == [] then Ok(n)
    else match MatchToken(parts[0])
      case None => Walk(n, parts[1..], v)
      case Some(tok) =>
        if !n.Map? then Raises
        else if |parts| == 1 then Ok(Map(WriteLast(n.entries, tok, v)))
        else
          var (m, steps) := Prepare(n.entries, tok);
          PlugResult(m, steps, Walk(At(m, steps).value, parts[1..], v))
  }

  /** The cursor after the last piece: the rebuilt tree is the whole answer. */
  lemma LastStep(t: Node, cur: seq<Step>, x: Node, v: Node)
    requires At(t, cur).Some?
    ensures At(Plug(t, cur, x), cur).Some?
    ensures PlugResult(Plug(t, cur, x), cur, Walk(At(Plug(t, cur, x), cur).value, [], v)) == Ok(Plug(t, cur, x))
  {
    PlugAt(t, cur, x);
    PlugSelf(Plug(t, cur, x), cur);
  }

  /** Moving the cursor down by `steps` after the container at `cur` became `m`. */
  lemma InnerStep(t: Node, cur: seq<Step>, m: Node, steps: seq<Step>, rest: seq<string>, v: Node)
    requires At(t, cur).Some? && At(m, steps).Some?
    ensures At(Plug(t, cur, m), cur + steps).Some?
    ensures PlugResult(Plug(t, cur, m), cur + steps, Walk(At(Plug(t, cur, m), cur + steps).value, rest, v))
         == PlugResult(t, cur, PlugResult(m, steps, Walk(At(m, steps).value, rest, v)))
  {
    var w := Walk(At(m, steps).value, rest, v);
    Descend(t, cur, m, steps, if w.Ok? then w.value else m);
  }

  /** The branch of `set_nested_value` for the last piece, on the dict at the cursor. */
  method AssignLast(es: Entries, tok: Token, value: Node) returns (r: Entries)
    ensures r == WriteLast(es, tok, value)
  {
    var key := S(tok.name);
    if tok.index.Some? {
      var idx := tok.index.value;
      var xs := PadList(ListAt(es, key), idx + 1, Null);
      xs := xs[idx := value];
      r := Put(es, key, List(xs));
    } else {
      r := Put(es, key, value);
    }
  }

  /** The branch of `set_nested_value` for an inner piece: the dict at the cursor
      once the child is ready, and the steps down to the new cursor. */
  method PrepareChild(es: Entries, tok: Token) returns (next: Node, steps: seq<Step>)
    ensures (next, steps) == Prepare(es, tok)
  {
    var key := S(tok.name);
    if tok.index.Some? {
      var idx := tok.index.value;
      var xs := PadList(ListAt(es, key), idx + 1, EmptyMap);
      if xs[idx] == Null {
        xs := xs[idx := EmptyMap];
      }
      next, steps := Map(Put(es, key, List(xs))), [Field(key), Slot(idx)];
    } else {
      var child := Lookup(es, key);
      if child.Some? && child.value.Map? {
        next := Map(es);
      } else {
        next := Map(Put(es, key, EmptyMap));
      }
      steps := [Field(key)];
    }
  }

  /** One turn of the loop of `set_nested_value`, on the pieces from the
      current one on: the tree and cursor it leaves behind, or the exception. */
  method SetPiece(t: Node, cur: seq<Step>, parts: seq<string>, value: Node) returns (r: Result<(Node, seq<Step>)>)
    requires At(t, cur).Some? && parts != []
    ensures r.Raises? ==> PlugResult(t, cur, Walk(At(t, cur).value, parts, value)) == Raises
    ensures r.Ok? ==> At(r.value.0, r.value.1).Some?
    ensures r.Ok? ==>
      PlugResult(r.value.0, r.value.1, Walk(At(r.value.0, r.value.1).value, parts[1..], value)) ==
      PlugResult(t, cur, Walk(At(t, cur).value, parts, value))
  {
    var current := At(t, cur).value;
    var m := MatchToken(parts[0]);
    if m.None? {
      return Ok((t, cur));
    }
    if !current.Map? {
      return Raises;
    }
    if |parts| == 1 {
      var es := AssignLast(current.entries, m.value, value);
      LastStep(t, cur, Map(es), value);
      r := Ok((Plug(t, cur, Map(es)), cur));
    } else {
      var next, steps := PrepareChild(current.entries, m.value);
      InnerStep(t, cur, next, steps, parts[1..], value);
      r := Ok((Plug(t, cur, next), cur + steps));
    }
  }

  /** `set_nested_value(d, key_str, value)`, with the dict `d` passed in and its
      new contents handed back. */
  method SetNestedValue(d: Node, keyStr: string, value: Node) returns (r: Result<Node>)
    ensures r == Walk(d, Split(keyStr, '.'), value)
  {
    var parts := Split(keyStr, '.');
    var t, cur, rest := d, [], parts;
    while rest != []
      invariant At(t, cur).Some?
      invariant PlugResult(t, cur, Walk(At(t, cur).value, rest, value)) == Walk(d, parts, value)
      decreases |rest|
    {
      var next := SetPiece(t, cur, rest, value);
      if next.Raises? {
        return Raises;
      }
      t, cur, rest := next.value.0, next.value.1, rest[1..];
    }
    PlugSelf(t, cur);
    r := Ok(t);
  }

  // ---------------------------------------------------------------------------
  // Properties of the builder

  /** The steps a matching piece leads through: `k`, or `k` then slot `j`. */
  function TokenSteps(tok: Token): seq<Step> {
    match tok.index
    case None => [Field(S(tok.name))]
    case Some(j) => [Field(S(tok.name)), Slot(j)]
  }

  /** The address a dotted path names: the steps of its matching pieces. */
  function PathSteps(parts: seq<string>): seq<Step>
    decreases |parts|
  {
    if parts == [] then []
    else match MatchToken(parts[0])
      case None => PathSteps(parts[1..])
      case Some(tok) => TokenSteps(tok) + PathSteps(parts[1..])
  }

  /** The last piece leaves the value where its steps lead. */
  lemma WriteLastAt(es: Entries, tok: Token, v: Node)
    ensures At(Map(WriteLast(es, tok, v)), TokenSteps(tok)) == Some(v)
  {
    var r := Map(WriteLast(es, tok, v));
    match tok.index
    case None =>
      assert TokenSteps(tok)[1..] == [];
    case Some(j) =>
      var xs := Lookup(r.entries, S(tok.name)).value.items;
      assert TokenSteps(tok)[1..] == [Slot(j)] && TokenSteps(tok)[1..][1..] == [];
      assert Child(r, Field(S(tok.name))) == Some(List(xs));
      assert At(r, TokenSteps(tok)) == At(List(xs), [Slot(j)]);
      assert Child(List(xs), Slot(j)) == Some(v);
      assert At(List(xs), [Slot(j)]) == At(v, []);
  }

  /** Writing a value and reading it back: when the last piece matches, the
      value sits at the address the path names. */
  lemma {:induction false} RoundTrip(n: Node, parts: seq<string>, v: Node)
    requires parts != [] && MatchToken(parts[|parts| - 1]).Some?
    requires Walk(n, parts, v).Ok?
    ensures At(Walk(n, parts, v).value, PathSteps(parts)) == Some(v)
    decreases |parts|
  {
    var rest := parts[1..];
    match MatchToken(parts[0])
    case None =>
      assert rest[|rest| - 1] == parts[|parts| - 1];
      RoundTrip(n, rest, v);
    case Some(tok) =>
      assert PathSteps(parts) == TokenSteps(tok) + PathSteps(rest);
      if |parts| == 1 {
        assert PathSteps(parts) == TokenSteps(tok);
        WriteLastAt(n.entries, tok, v);
      } else {
        var (m, steps) := Prepare(n.entries, tok);
        assert steps == TokenSteps(tok);
        var c := At(m, steps).value;
        assert rest[|rest| - 1] == parts[|parts| - 1];
        RoundTrip(c, rest, v);
        var c1 := Walk(c, rest, v).value;
        assert Walk(n, parts, v) == Ok(Plug(m, steps, c1));
        PlugAt(m, steps, c1);
        AtAppend(Plug(m, steps, c1), steps, PathSteps(rest));
      }
  }

  /** Two writes of the same kind at the same place: the second wins. */
  lemma WriteLastTwice(es: Entries, tok: Token, a: Node, b: Node)
    ensures WriteLast(WriteLast(es, tok, a), tok, b) == WriteLast(es, tok, b)
  {
    var k := S(tok.name);
    match tok.index
    case None => PutPut(es, k, a, b);
    case Some(j) =>
      var xs := Padded(ListAt(es, k), j + 1, Null);
      assert ListAt(WriteLast(es, tok, a), k) == xs[j := a];
      assert Padded(xs[j := a], j + 1, Null) == xs[j := a];
      assert xs[j := a][j := b] == xs[j := b];
      PutPut(es, k, List(xs[j := a]), List(xs[j := b]));
  }

  /** After an inner piece has been walked once, walking it again finds the
      child in place and changes nothing on the way down. */
  lemma PrepareAgain(es: Entries, tok: Token, c1: Node)
    requires var (m, steps) := Prepare(es, tok);
      c1 != Null && (tok.index.None? ==> c1.Map?)
    ensures var (m, steps) := Prepare(es, tok);
      Plug(m, steps, c1).Map? && Prepare(Plug(m, steps, c1).entries, tok) == (Plug(m, steps, c1), steps)
  {
    var (m, steps) := Prepare(es, tok);
    if tok.index.None? {
      assert steps[1..] == [];
    } else {
      PrepareAgainSlot(es, tok, c1);
    }
  }

  lemma PrepareAgainSlot(es: Entries, tok: Token, c1: Node)
    requires tok.index.Some? && c1 != Null
    ensures var (m, steps) := Prepare(es, tok);
      Plug(m, steps, c1).Map? && Prepare(Plug(m, steps, c1).entries, tok) == (Plug(m, steps, c1), steps)
  {
    var (m, steps) := Prepare(es, tok);
    var k, j := S(tok.name), tok.index.value;
    var xs := Lookup(m.entries, k).value.items;
    assert steps[1..] == [Slot(j)] && steps[1..][1..] == [];
    var ys := xs[j := c1];
    assert Plug(List(xs), [Slot(j)], c1) == List(ys);
    var n1 := Map(Put(m.entries, k, List(ys)));
    assert Plug(m, steps, c1) == n1;
    assert ListAt(n1.entries, k) == ys;
    PutSame(n1.entries, k);
  }

  /** Writing `v1` and then `v2` at the same path leaves what writing `v2`
      alone leaves: the later write wins, and writing twice is writing once. */
  lemma {:induction false} LastWriteWins(n: Node, parts: seq<string>, v1: Node, v2: Node)
    requires Walk(n, parts, v1).Ok?
    ensures Walk(Walk(n, parts, v1).value, parts, v2) == Walk(n, parts, v2)
    decreases |parts|
  {
    if parts != [] {
      var rest := parts[1..];
      match MatchToken(parts[0])
      case None => LastWriteWins(n, rest, v1, v2);
      case Some(tok) =>
        if |parts| == 1 {
          WriteLastTwice(n.entries, tok, v1, v2);
        } else {
          var (m, steps) := Prepare(n.entries, tok);
          LastWriteWins(At(m, steps).value, rest, v1, v2);
          WriteAgainStep(n, parts, tok, v1, v2);
        }
    }
  }

  /** The inner piece of LastWriteWins: once the second write below the child
      comes to the first one alone, so does the second write of the whole path. */
  lemma WriteAgainStep(n: Node, parts: seq<string>, tok: Token, v1: Node, v2: Node)
    requires n.Map? && |parts| > 1 && MatchToken(parts[0]) == Some(tok)
    requires var (m, steps) := Prepare(n.entries, tok);
      var c := At(m, steps).value;
      Walk(c, parts[1..], v1).Ok? &&
      Walk(Walk(c, parts[1..], v1).value, parts[1..], v2) == Walk(c, parts[1..], v2)
    ensures Walk(n, parts, v1).Ok?
    ensures Walk(Walk(n, parts, v1).value, parts, v2) == Walk(n, parts, v2)
  {
    var (m, steps) := Prepare(n.entries, tok);
    var c := At(m, steps).value;
    var c1 := Walk(c, parts[1..], v1).value;
    WalkInner(n, parts, tok, v1);
    WalkInner(n, parts, tok, v2);
    PrepareAgain(n.entries, tok, c1);
    var n1 := Plug(m, steps, c1);
    WalkInner(n1, parts, tok, v2);
    PlugAt(m, steps, c1);
    var w := Walk(c, parts[1..], v2);
    if w.Ok? {
      PlugPlug(m, steps, c1, w.value);
    }
  }

  /** Walk at a matching inner piece on a dict. */
  lemma WalkInner(n: Node, parts: seq<string>, tok: Token, v: Node)
    requires n.Map? && |parts| > 1 && MatchToken(parts[0]) == Some(tok)
    ensures Walk(n, parts, v) ==
      PlugResult(Prepare(n.entries, tok).0, Prepare(n.entries, tok).1,
        Walk(At(Prepare(n.entries, tok).0, Prepare(n.entries, tok).1).value, parts[1..], v))
  {
  }

  /** Every key but the one the path starts with keeps its value and its
      position, and that key is added last when it is new. */
  lemma {:induction false} WalkFrame(n: Node, parts: seq<string>, v: Node)
    requires n.Map? && Walk(n, parts, v).Ok?
    ensures var r := Walk(n, parts, v).value;
      match FirstToken(parts)
      case None => r == n
      case Some(tok) =>
        (forall k :: k != S(tok.name) ==> Lookup(r.entries, k) == Lookup(n.entries, k)) &&
        KeysOf(r.entries) == if Has(n.entries, S(tok.name)) then KeysOf(n.entries) else KeysOf(n.entries) + [S(tok.name)]
    decreases |parts|
  {
    if parts != [] {
      match MatchToken(parts[0])
      case None => WalkFrame(n, parts[1..], v);
      case Some(tok) =>
        if |parts| > 1 {
          var (m, steps) := Prepare(n.entries, tok);
          var c1 := Walk(At(m, steps).value, parts[1..], v).value;
          var k := S(tok.name);
          assert Child(m, Field(k)).Some?;
          assert Plug(m, steps, c1) == Map(Put(m.entries, k, Plug(Child(m, Field(k)).value, steps[1..], c1)));
        }
    }
  }

  /** When the last piece does not match, the value is never written: the
      result does not depend on it (inner pieces may still have been created). */
  lemma {:induction false} SkippedLastWritesNothing(n: Node, parts: seq<string>, v1: Node, v2: Node)
    requires parts != [] && MatchToken(parts[|parts| - 1]).None?
    ensures Walk(n, parts, v1) == Walk(n, parts, v2)
    decreases |parts|
  {
    var rest := parts[1..];
    if rest != [] {
      assert rest[|rest| - 1] == parts[|parts| - 1];
      match MatchToken(parts[0])
      case None => SkippedLastWritesNothing(n, rest, v1, v2);
      case Some(tok) =>
        if n.Map? {
          var (m, steps) := Prepare(n.entries, tok);
          SkippedLastWritesNothing(At(m, steps).value, rest, v1, v2);
        }
    }
  }

  /** The list the last piece `k[i]` leaves: the old items padded with
      `None`, and the value at slot `i`. */
  lemma PaddedSetAt(xs: seq<Node>, i: nat, v: Node, t: nat)
    requires t < |Padded(xs, i + 1, Null)[i := v]|
    ensures Padded(xs, i + 1, Null)[i := v][t] == if t == i then v else if t < |xs| then xs[t] else Null
  {
    var ys := Padded(xs, i + 1, Null);
    if t < |xs| && t != i {
      assert ys[..|xs|][t] == xs[t];
    }
  }

  /** Two final writes into different slots of one list, in either order,
      leave the same list: holes are filled with `None` whichever index
      arrives first. */
  lemma SlotWritesCommute(es: Entries, name: string, i: nat, j: nat, vi: Node, vj: Node)
    requires i != j
    ensures WriteLast(WriteLast(es, Token(name, Some(i)), vi), Token(name, Some(j)), vj) ==
            WriteLast(WriteLast(es, Token(name, Some(j)), vj), Token(name, Some(i)), vi)
  {
    var k := S(name);
    var xs := ListAt(es, k);
    var ai := Padded(xs, i + 1, Null)[i := vi];
    var aj := Padded(xs, j + 1, Null)[j := vj];
    var ei, ej := Put(es, k, List(ai)), Put(es, k, List(aj));
    SlotWrite(es, name, i, vi);
    SlotWrite(es, name, j, vj);
    PutListAt(es, k, ai);
    PutListAt(es, k, aj);
    SlotWrite(ei, name, j, vj);
    SlotWrite(ej, name, i, vi);
    PaddedSetsCommute(xs, i, j, vi, vj);
    PutPut(es, k, List(ai), List(Padded(ai, j + 1, Null)[j := vj]));
    PutPut(es, k, List(aj), List(Padded(aj, i + 1, Null)[i := vi]));
  }

  /** The final write `k[j]`, as the list it stores. */
  lemma SlotWrite(es: Entries, name: string, j: nat, v: Node)
    ensures WriteLast(es, Token(name, Some(j)), v) == Put(es, S(name), List(Padded(ListAt(es, S(name)), j + 1, Null)[j := v]))
  {
  }

  lemma PutListAt(es: Entries, k: Key, xs: seq<Node>)
    ensures ListAt(Put(es, k, List(xs)), k) == xs
  {
  }

  lemma PaddedSetsCommute(xs: seq<Node>, i: nat, j: nat, vi: Node, vj: Node)
    requires i != j
    ensures Padded(Padded(xs, i + 1, Null)[i := vi], j + 1, Null)[j := vj] ==
            Padded(Padded(xs, j + 1, Null)[j := vj], i + 1, Null)[i := vi]
  {
    var ai := Padded(xs, i + 1, Null)[i := vi];
    var aj := Padded(xs, j + 1, Null)[j := vj];
    var a := Padded(ai, j + 1, Null)[j := vj];
    var b := Padded(aj, i + 1, Null)[i := vi];
    forall t | 0 <= t < |a|
      ensures t < |b| && a[t] == b[t]
    {
      PaddedSetAt(ai, j, vj, t);
      PaddedSetAt(aj, i, vi, t);
      if t < |ai| {
        PaddedSetAt(xs, i, vi, t);
      }
      if t < |aj| {
        PaddedSetAt(xs, j, vj, t);
      }
    }
  }

  /** The order of arrival does show when a final write `k[j]` and an inner
      piece `k[i]` (with `i < j`) meet a list that is not there yet: the final
      write pads with `None`, the inner piece with `{}`. Written first, the
      final write leaves slot 0 `None`; written second, it finds slot 0
      already `{}`. */
  lemma MixedArrivalHoles(es: Entries, name: string, i: nat, j: nat, v: Node)
    requires 0 < i < j && ListAt(es, S(name)) == []
    ensures var fin, inner := Token(name, Some(j)), Token(name, Some(i));
      var finalFirst := Prepare(WriteLast(es, fin, v), inner).0;
      var innerFirst := WriteLast(Prepare(es, inner).0.entries, fin, v);
      ListAt(finalFirst.entries, S(name))[0] == Null &&
      ListAt(innerFirst, S(name))[0] == EmptyMap
  {
    var k := S(name);
    var fin, inner := Token(name, Some(j)), Token(name, Some(i));
    var w := WriteLast(es, fin, v);
    PaddedSetAt([], j, v, 0);
    assert ListAt(w, k) == Padded([], j + 1, Null)[j := v];
    var inn := Prepare(es, inner).0.entries;
    assert ListAt(inn, k)[0] == EmptyMap;
    PaddedSetAt(ListAt(inn, k), j, v, 0);
  }

  /** A scalar already in slot `j` is not replaced, so a later matching piece
      has no dict to work on and the write fails. */
  lemma ScalarSlotBlocks(es: Entries, p: string, rest: seq<string>, v: Node)
    requires MatchToken(p).Some? && MatchToken(p).value.index.Some?
    requires var tok := MatchToken(p).value; var xs := ListAt(es, S(tok.name));
      tok.index.value < |xs| && xs[tok.index.value].Scalar?
    requires AnyMatch(rest)
    ensures Walk(Map(es), [p] + rest, v) == Raises
  {
    assert ([p] + rest)[0] == p && ([p] + rest)[1..] == rest;
  }
}
