/** The nested-argument builder of 5.py (`handle_nested_keys`, lines 29-48,
    and `ensure_list`, lines 50-58). A piece of digits is a list index handled
    by `ensure_list`, which pads a list in place but, for anything that is not
    a list, returns a NEW list that no one stores: the rest of the path then
    works on containers outside the tree. Any other piece is a dict key whose
    child is made `{}` when absent (`setdefault`). */
module DetachedBuilder {
  import opened PyValues
  import opened Tree
  import opened Address
  import KeyWalk

  /** `ensure_list(current, index)`: a list padded with `{}` to hold slot
      `index`, or for anything else a new list of `index + 1` dicts. */
  function EnsuredList(c: Node, j: nat): (xs: seq<Node>)
    ensures |xs| >= j + 1
    ensures c.List? ==> |xs| == (if |c.items| <= j then j + 1 else |c.items|) && xs[..|c.items|] == c.items
    ensures c.List? ==> forall i :: |c.items| <= i < |xs| ==> xs[i] == EmptyMap
    ensures !c.List? ==> |xs| == j + 1 && forall i :: 0 <= i < |xs| ==> xs[i] == EmptyMap
  {
    Padded(if c.List? then c.items else [], j + 1, EmptyMap)
  }

  method EnsureList(current: Node, index: nat) returns (xs: seq<Node>)
    ensures xs == EnsuredList(current, index)
  {
    if current.List? {
      xs := current.items;
    } else if index == 0 {
      xs := [EmptyMap];
    } else {
      xs := seq(index + 1, _ => EmptyMap);
    }
    assert !current.List? ==> xs == Padded([], index + 1, EmptyMap);
    while |xs| <= index
      invariant Padded(xs, index + 1, EmptyMap) == EnsuredList(current, index)
      decreases index - |xs|
    {
      xs := xs + [EmptyMap];
    }
  }

  /** The node the walk starts from after the pieces `parts` have stored `v`.
      A digit piece on anything but a list leaves that node as it was: the
      rest of the walk runs on the detached list and cannot fail (see
      `DetachedWalkOk`). */
  function Walk(n: Node, parts: seq<string>, v: Node): (r: Result<Node>)
    requires parts != []
    decreases |parts|
  {
    var p := parts[0];
    if IsDigitString(p) then
      var j := DigitsValue(p);
      var xs := EnsuredList(n, j);
      if |parts| == 1 then
        if n.List? then Ok(List(xs[j := v])) else Ok(n)
      else match Walk(xs[j], parts[1..], v)
        case Raises => Raises
        case Ok(c) => if n.List? then Ok(List(xs[j := c])) else Ok(n)
    else if !n.Map? then Raises
    else if |parts| == 1 then Ok(Map(Put(n.entries, S(p), v)))
    else
      var (es, c) := Setdefault(n.entries, S(p), EmptyMap);
      match Walk(c, parts[1..], v)
      case Raises => Raises
      case Ok(c') => Ok(Map(Put(es, S(p), c')))
  }

  /** A walk that starts on a fresh `{}` never raises. */
  lemma {:induction false} DetachedWalkOk(parts: seq<string>, v: Node)
    requires parts != []
    ensures Walk(EmptyMap, parts, v).Ok?
    decreases |parts|
  {
    if |parts| > 1 {
      DetachedWalkOk(parts[1..], v);
    }
  }

  /** Where the cursor goes for an inner piece. */
  datatype Move = Into(t: Node, cur: seq<Step>) | Detach | Fail

  function Enter(t: Node, cur: seq<Step>, key: string): (m: Move)
    requires At(t, cur).Some?
    ensures m.Into? ==> At(m.t, m.cur).Some?
  {
    var c := At(t, cur).value;
    if IsDigitString(key) then
      var j := DigitsValue(key);
      if c.List? then
        var m := List(EnsuredList(c, j));
        assert At(m, [Slot(j)]) == At(m.items[j], []);
        Descend(t, cur, m, [Slot(j)], m);
        Into(Plug(t, cur, m), cur + [Slot(j)])
      else Detach
    else if c.Map? then
      var m := Map(Setdefault(c.entries, S(key), EmptyMap).0);
      assert At(m, [Field(S(key))]) == At(Lookup(m.entries, S(key)).value, []);
      Descend(t, cur, m, [Field(S(key))], m);
      Into(Plug(t, cur, m), cur + [Field(S(key))])
    else Fail
  }

  /** One inner piece of the walk, seen from the whole tree. */
  lemma EnterStep(t: Node, cur: seq<Step>, parts: seq<string>, v: Node)
    requires At(t, cur).Some? && |parts| > 1
    ensures PlugResult(t, cur, Walk(At(t, cur).value, parts, v)) ==
      match Enter(t, cur, parts[0])
      case Into(t', cur') => PlugResult(t', cur', Walk(At(t', cur').value, parts[1..], v))
      case Detach => Ok(t)
      case Fail => Raises
  {
    var c := At(t, cur).value;
    var key := parts[0];
    if IsDigitString(key) {
      var j := DigitsValue(key);
      var m := List(EnsuredList(c, j));
      if c.List? {
        assert At(m, [Slot(j)]) == At(m.items[j], []);
        var w := Walk(m.items[j], parts[1..], v);
        Descend(t, cur, m, [Slot(j)], if w.Ok? then w.value else m);
      } else {
        assert EnsuredList(c, j)[j] == EmptyMap;
        DetachedWalkOk(parts[1..], v);
        PlugSelf(t, cur);
      }
    } else if c.Map? {
      var (es, child) := Setdefault(c.entries, S(key), EmptyMap);
      var m := Map(es);
      assert At(m, [Field(S(key))]) == At(child, []);
      var w := Walk(child, parts[1..], v);
      Descend(t, cur, m, [Field(S(key))], if w.Ok? then w.value else m);
    }
  }

  /** The walk seen from the whole tree, piece by piece as the loop takes it. */
  function Run(t: Node, cur: seq<Step>, keys: seq<string>, v: Node): Result<Node>
    requires At(t, cur).Some? && keys != []
    decreases |keys|
  {
    if |keys| == 1 then PlugResult(t, cur, Walk(At(t, cur).value, keys, v))
    else match Enter(t, cur, keys[0])
      case Into(t', cur') => Run(t', cur', keys[1..], v)
      case Detach => Ok(t)
      case Fail => Raises
  }

  lemma {:induction false} RunIsWalk(t: Node, cur: seq<Step>, keys: seq<string>, v: Node)
    requires At(t, cur).Some? && keys != []
    ensures Run(t, cur, keys, v) == PlugResult(t, cur, Walk(At(t, cur).value, keys, v))
    decreases |keys|
  {
    if |keys| > 1 {
      EnterStep(t, cur, keys, v);
      match Enter(t, cur, keys[0])
      case Into(t', cur') => RunIsWalk(t', cur', keys[1..], v);
      case Detach =>
      case Fail =>
    }
  }

  /** The loop body for an inner piece (5.py lines 34-39). */
  method EnterPiece(t: Node, cur: seq<Step>, key: string) returns (m: Move)
    requires At(t, cur).Some?
    ensures m == Enter(t, cur, key)
  {
    var current := At(t, cur).value;
    if IsDigitString(key) {
      var j := DigitsValue(key);
      var xs := EnsureList(current, j);
      if !current.List? {
        return Detach;
      }
      m := Into(Plug(t, cur, List(xs)), cur + [Slot(j)]);
    } else {
      if !current.Map? {
        return Fail;
      }
      var es := current.entries;
      if !Has(es, S(key)) {
        es := Put(es, S(key), EmptyMap);
      }
      assert es == Setdefault(current.entries, S(key), EmptyMap).0;
      m := Into(Plug(t, cur, Map(es)), cur + [Field(S(key))]);
    }
  }

  /** The assignment of the last piece (5.py lines 42-48). */
  method AssignPiece(current: Node, key: string, value: Node) returns (r: Result<Node>)
    ensures r == Walk(current, [key], value)
  {
    if IsDigitString(key) {
      var j := DigitsValue(key);
      var xs := EnsureList(current, j);
      if !current.List? {
        return Ok(current);
      }
      r := Ok(List(xs[j := value]));
    } else {
      if !current.Map? {
        return Raises;
      }
      r := Ok(Map(Put(current.entries, S(key), value)));
    }
  }

  /** `handle_nested_keys(current, keys, value)`, with the dict passed in and
      its new contents handed back. Once the cursor has left the tree the
      remaining pieces only touch the detached containers, so the loop stops
      there. */
  method HandleNestedKeys(root: Node, keys: seq<string>, value: Node) returns (r: Result<Node>)
    requires keys != []
    ensures r == Walk(root, keys, value)
  {
    RunIsWalk(root, [], keys, value);
    assert PlugResult(root, [], Walk(root, keys, value)) == Walk(root, keys, value);
    var t, cur, rest := root, [], keys;
    while |rest| > 1
      invariant rest != [] && At(t, cur).Some?
      invariant Run(t, cur, rest, value) == Run(root, [], keys, value)
      decreases |rest|
    {
      var m := EnterPiece(t, cur, rest[0]);
      if m.Fail? {
        return Raises;
      } else if m.Detach? {
        return Ok(t);
      }
      t, cur, rest := m.t, m.cur, rest[1..];
    }
    assert rest == [rest[0]];
    r := AssignPiece(At(t, cur).value, rest[0], value);
    r := PlugResult(t, cur, r);
  }

  /** One row of 5.py (lines 73-79): the resource's dict is taken with
      `setdefault(resource, {})` and the row's path walked from it. */
  function Build(tfvars: Entries, resource: Key, parts: seq<string>, v: Node): (r: Result<Entries>)
    requires parts != []
    ensures r.Ok? ==> Has(r.value, resource)
    ensures r.Ok? ==> forall k :: k != resource ==> Lookup(r.value, k) == Lookup(tfvars, k)
  {
    var (es, root) := Setdefault(tfvars, resource, EmptyMap);
    match Walk(root, parts, v)
    case Raises => Raises
    case Ok(t) => Ok(Put(es, resource, t))
  }

  // ---------------------------------------------------------------------------
  // Properties of the builder

  /** A digit piece where the tree holds no list changes nothing, whatever
      follows it. */
  lemma DigitOnNonListIsLost(n: Node, parts: seq<string>, v: Node)
    requires parts != [] && IsDigitString(parts[0]) && !n.List?
    ensures Walk(n, parts, v) == Ok(n)
  {
    if |parts| > 1 {
      DetachedWalkOk(parts[1..], v);
    }
  }

  /** Without digit pieces the 5.py builder is the plain dict builder of
      main.py. */
  lemma {:induction false} AgreesWithKeyWalk(n: Node, parts: seq<string>, v: Node)
    requires parts != [] && forall i :: 0 <= i < |parts| ==> !IsDigitString(parts[i])
    ensures Walk(n, parts, v) == KeyWalk.WalkKeys(n, KeyWalk.StrKeys(parts), v)
    decreases |parts|
  {
    var ks := KeyWalk.StrKeys(parts);
    assert !IsDigitString(parts[0]) && ks[0] == S(parts[0]);
    if |parts| > 1 && n.Map? {
      var (es, c) := Setdefault(n.entries, S(parts[0]), EmptyMap);
      assert ks[1..] == KeyWalk.StrKeys(parts[1..]);
      assert forall i :: 0 <= i < |parts[1..]| ==> parts[1..][i] == parts[i + 1];
      AgreesWithKeyWalk(c, parts[1..], v);
    }
  }

  /** A tree without lists. */
  predicate ListFree(n: Node)
    decreases n
  {
    match n
    case List(_) => false
    case Map(es) => forall e | e in es :: ListFree(e.1)
    case _ => true
  }

  /** 5.py never builds a list: from a tree without lists, every row leaves a
      tree without lists, so an index in a path never reaches the output. */
  lemma {:induction false} NeverMakesList(n: Node, parts: seq<string>, v: Node)
    requires parts != [] && ListFree(n) && ListFree(v)
    requires Walk(n, parts, v).Ok?
    ensures ListFree(Walk(n, parts, v).value)
    decreases |parts|
  {
    var p := parts[0];
    if IsDigitString(p) {
      DigitOnNonListIsLost(n, parts, v);
    } else if |parts| == 1 {
      PutMembers(n.entries, S(p), v);
    } else {
      var (es, c) := Setdefault(n.entries, S(p), EmptyMap);
      if Has(n.entries, S(p)) {
        assert n.entries[Find(n.entries, S(p))] in n.entries;
      }
      NeverMakesList(c, parts[1..], v);
      var c' := Walk(c, parts[1..], v).value;
      PutMembers(es, S(p), c');
      PutMembers(n.entries, S(p), EmptyMap);
    }
  }

  /** A dotted path `name.<digits>...` whose `name` holds no list (it is
      missing, or a dict or a scalar) leaves the resource as `setdefault(name,
      {})` made it: whatever follows the index, the value is lost. */
  lemma IndexedValueIsLost(es: Entries, name: string, parts: seq<string>, v: Node)
    requires !IsDigitString(name) && parts != [] && IsDigitString(parts[0])
    requires Lookup(es, S(name)).None? || !Lookup(es, S(name)).value.List?
    ensures Walk(Map(es), [name] + parts, v) == Ok(Map(Setdefault(es, S(name), EmptyMap).0))
  {
    var (es', c) := Setdefault(es, S(name), EmptyMap);
    assert ([name] + parts)[0] == name && ([name] + parts)[1..] == parts;
    DigitOnNonListIsLost(c, parts, v);
    assert Walk(Map(es), [name] + parts, v) == Ok(Map(Put(es', S(name), c)));
    if Has(es, S(name)) {
      PutSame(es, S(name));
    } else {
      PutPut(es, S(name), EmptyMap, EmptyMap);
    }
  }
}
