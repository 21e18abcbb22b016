/** The nested-argument builder of 6.py (lines 33-59). A piece of digits is a
    list index: when the cursor is not a list, the builder makes a new list and
    stores it as the whole resource (`sheet_data[resource] = current`), which
    throws away everything the resource held, however deep the cursor was. Any
    other piece is a dict key whose child is made `{}` when absent. */
module ResetBuilder {
  import opened PyValues
  import opened Tree
  import opened Address
  import KeyWalk

  /** The new list a digit piece `j` starts from: `j + 1` fresh dicts. */
  function FreshList(j: nat): (xs: seq<Node>)
    ensures |xs| == j + 1 && forall i :: 0 <= i < |xs| ==> xs[i] == EmptyMap
  {
    Padded([], j + 1, EmptyMap)
  }

  /** An inner piece: the resource's tree and the cursor after it, or the
      exception. */
  function Enter(t: Node, cur: seq<Step>, key: string): (r: Result<(Node, seq<Step>)>)
    requires At(t, cur).Some?
    ensures r.Ok? ==> At(r.value.0, r.value.1).Some?
    ensures r.Raises? <==> !IsDigitString(key) && !At(t, cur).value.Map?
    ensures IsDigitString(key) && !At(t, cur).value.List? ==>
      r == Ok((List(FreshList(DigitsValue(key))), [Slot(DigitsValue(key))]))
  {
    var c := At(t, cur).value;
    if IsDigitString(key) then
      var j := DigitsValue(key);
      if c.List? then
        var m := List(Padded(c.items, j + 1, EmptyMap));
        assert At(m, [Slot(j)]) == At(m.items[j], []);
        Descend(t, cur, m, [Slot(j)], m);
        Ok((Plug(t, cur, m), cur + [Slot(j)]))
      else
        var m := List(FreshList(j));
        assert At(m, [Slot(j)]) == At(m.items[j], []);
        Ok((m, [Slot(j)]))
    else if c.Map? then
      var m := Map(Setdefault(c.entries, S(key), EmptyMap).0);
      assert At(m, [Field(S(key))]) == At(Lookup(m.entries, S(key)).value, []);
      Descend(t, cur, m, [Field(S(key))], m);
      Ok((Plug(t, cur, m), cur + [Field(S(key))]))
    else Raises
  }

  /** The last piece: the resource's tree after the value is stored. */
  function Assign(t: Node, cur: seq<Step>, key: string, v: Node): (r: Result<Node>)
    requires At(t, cur).Some?
    ensures r.Raises? <==> !IsDigitString(key) && !At(t, cur).value.Map?
    ensures IsDigitString(key) && !At(t, cur).value.List? ==>
      r == Ok(List(FreshList(DigitsValue(key))[DigitsValue(key) := v]))
  {
    var c := At(t, cur).value;
    if IsDigitString(key) then
      var j := DigitsValue(key);
      if c.List? then Ok(Plug(t, cur, List(Padded(c.items, j + 1, EmptyMap)[j := v])))
      else Ok(List(FreshList(j)[j := v]))
    else if c.Map? then Ok(Plug(t, cur, Map(Put(c.entries, S(key), v))))
    else Raises
  }

  /** The resource's tree after the pieces `keys`, starting at the cursor. */
  function Run(t: Node, cur: seq<Step>, keys: seq<string>, v: Node): Result<Node>
    requires At(t, cur).Some? && keys != []
    decreases |keys|
  {
    if |keys| == 1 then Assign(t, cur, keys[0], v)
    else match Enter(t, cur, keys[0])
      case Raises => Raises
      case Ok((t', cur')) => Run(t', cur', keys[1..], v)
  }

  /** One row: `sheet_data` after the row's value is stored under `resource`
      at the path `keys`. */
  function Build(sheetData: Entries, resource: Key, keys: seq<string>, v: Node): (r: Result<Entries>)
    requires keys != []
    ensures r.Ok? ==> Has(r.value, resource)
    ensures r.Ok? ==> forall k :: k != resource ==> Lookup(r.value, k) == Lookup(sheetData, k)
  {
    var (es, root) := Setdefault(sheetData, resource, EmptyMap);
    match Run(root, [], keys, v)
    case Raises => Raises
    case Ok(t) => Ok(Put(es, resource, t))
  }

  /** The body of the loop for an inner piece (6.py lines 36-47). */
  method EnterPiece(t: Node, cur: seq<Step>, key: string) returns (r: Result<(Node, seq<Step>)>)
    requires At(t, cur).Some?
    ensures r == Enter(t, cur, key)
  {
    var current := At(t, cur).value;
    if IsDigitString(key) {
      var j := DigitsValue(key);
      if !current.List? {
        var xs := PadList([], j + 1, EmptyMap);
        return Ok((List(xs), [Slot(j)]));
      }
      var xs := PadList(current.items, j + 1, EmptyMap);
      r := Ok((Plug(t, cur, List(xs)), cur + [Slot(j)]));
    } else {
      if !current.Map? {
        return Raises;
      }
      var m := current.entries;
      if !Has(m, S(key)) {
        m := Put(m, S(key), EmptyMap);
      }
      assert m == Setdefault(current.entries, S(key), EmptyMap).0;
      r := Ok((Plug(t, cur, Map(m)), cur + [Field(S(key))]));
    }
  }

  /** The assignment of the last piece (6.py lines 49-59). */
  method AssignPiece(t: Node, cur: seq<Step>, key: string, value: Node) returns (r: Result<Node>)
    requires At(t, cur).Some?
    ensures r == Assign(t, cur, key, value)
  {
    var current := At(t, cur).value;
    if IsDigitString(key) {
      var j := DigitsValue(key);
      if !current.List? {
        var xs := PadList([], j + 1, EmptyMap);
        return Ok(List(xs[j := value]));
      }
      var xs := PadList(current.items, j + 1, EmptyMap);
      r := Ok(Plug(t, cur, List(xs[j := value])));
    } else {
      if !current.Map? {
        return Raises;
      }
      r := Ok(Plug(t, cur, Map(Put(current.entries, S(key), value))));
    }
  }

  /** The loop of 6.py over one row's pieces, with `sheet_data` passed in and
      its new contents handed back. */
  method ApplyRow(sheetData: Entries, resource: Key, keys: seq<string>, value: Node) returns (r: Result<Entries>)
    requires keys != []
    ensures r == Build(sheetData, resource, keys, value)
  {
    var es := sheetData;
    if !Has(es, resource) {
      es := Put(es, resource, EmptyMap);
    }
    var root := Lookup(es, resource).value;
    assert (es, root) == Setdefault(sheetData, resource, EmptyMap);
    var t, cur, rest := root, [], keys;
    while |rest| > 1
      invariant rest != [] && At(t, cur).Some?
      invariant Run(t, cur, rest, value) == Run(root, [], keys, value)
      decreases |rest|
    {
      var next := EnterPiece(t, cur, rest[0]);
      if next.Raises? {
        return Raises;
      }
      t, cur, rest := next.value.0, next.value.1, rest[1..];
    }
    var last := AssignPiece(t, cur, rest[0], value);
    if last.Raises? {
      return Raises;
    }
    r := Ok(Put(es, resource, last.value));
  }

  // ---------------------------------------------------------------------------
  // Properties of the builder

  predicate NoIndexPiece(keys: seq<string>) {
    forall i :: 0 <= i < |keys| ==> !IsDigitString(keys[i])
  }

  /** Without digit pieces the 6.py builder is the plain dict builder of
      main.py, from the cursor on. */
  lemma {:induction false} AgreesWithKeyWalk(t: Node, cur: seq<Step>, keys: seq<string>, v: Node)
    requires At(t, cur).Some? && keys != [] && NoIndexPiece(keys)
    ensures Run(t, cur, keys, v) == PlugResult(t, cur, KeyWalk.WalkKeys(At(t, cur).value, KeyWalk.StrKeys(keys), v))
    decreases |keys|
  {
    var c := At(t, cur).value;
    var ks := KeyWalk.StrKeys(keys);
    var k := S(keys[0]);
    assert !IsDigitString(keys[0]);
    if |keys| == 1 {
      if c.Map? {
        assert KeyWalk.WalkKeys(c, ks, v) == Ok(Map(Put(c.entries, k, v)));
      }
    } else if c.Map? {
      var m := Map(Setdefault(c.entries, k, EmptyMap).0);
      assert Enter(t, cur, keys[0]) == Ok((Plug(t, cur, m), cur + [Field(k)]));
      assert ks[1..] == KeyWalk.StrKeys(keys[1..]);
      assert NoIndexPiece(keys[1..]) by {
        forall i | 0 <= i < |keys[1..]| ensures !IsDigitString(keys[1..][i]) {
          assert keys[1..][i] == keys[i + 1];
        }
      }
      AgreesWithKeyWalk(Plug(t, cur, m), cur + [Field(k)], keys[1..], v);
      KeyWalk.KeyStep(t, cur, m, k, ks[1..], v);
      KeyWalk.Enter(c, ks, v);
    }
  }

  /** So a whole row without digit pieces does what main.py does with it. */
  lemma BuildAgreesWithKeyWalk(sheetData: Entries, resource: Key, keys: seq<string>, v: Node)
    requires keys != [] && NoIndexPiece(keys)
    ensures Build(sheetData, resource, keys, v)
         == match KeyWalk.WalkKeys(Map(sheetData), [resource] + KeyWalk.StrKeys(keys), v)
            case Raises => Raises
            case Ok(n) => Ok(n.entries)
  {
    var (es, root) := Setdefault(sheetData, resource, EmptyMap);
    var ks := [resource] + KeyWalk.StrKeys(keys);
    assert ks[0] == resource && ks[1..] == KeyWalk.StrKeys(keys);
    AgreesWithKeyWalk(root, [], keys, v);
    var w := KeyWalk.WalkKeys(root, ks[1..], v);
    if w.Ok? {
      assert Plug(root, [], w.value) == w.value;
    }
  }

  /** Replacing a subtree inside a list leaves a list. */
  lemma PlugKeepsList(t: Node, cur: seq<Step>, x: Node)
    requires t.List? && cur != [] && At(t, cur).Some?
    ensures Plug(t, cur, x).List?
  {
    assert Child(t, cur[0]).Some?;
  }

  /** Once the resource is a list with the cursor inside it, it stays a list. */
  lemma {:induction false} RunKeepsList(t: Node, cur: seq<Step>, keys: seq<string>, v: Node)
    requires At(t, cur).Some? && keys != []
    requires t.List? && cur != []
    requires Run(t, cur, keys, v).Ok?
    ensures Run(t, cur, keys, v).value.List?
    decreases |keys|
  {
    var c := At(t, cur).value;
    var key := keys[0];
    if |keys| == 1 {
      if IsDigitString(key) {
        if c.List? {
          PlugKeepsList(t, cur, List(Padded(c.items, DigitsValue(key) + 1, EmptyMap)[DigitsValue(key) := v]));
        }
      } else {
        PlugKeepsList(t, cur, Map(Put(c.entries, S(key), v)));
      }
    } else {
      var next := Enter(t, cur, key).value;
      if IsDigitString(key) {
        if c.List? {
          PlugKeepsList(t, cur, List(Padded(c.items, DigitsValue(key) + 1, EmptyMap)));
        }
      } else {
        PlugKeepsList(t, cur, Map(Setdefault(c.entries, S(key), EmptyMap).0));
      }
      RunKeepsList(next.0, next.1, keys[1..], v);
    }
  }

  /** A row whose path starts with a digit turns the whole resource into a
      list: whatever named arguments earlier rows gave it are gone. */
  lemma DigitFirstMakesList(sheetData: Entries, resource: Key, keys: seq<string>, v: Node)
    requires keys != [] && IsDigitString(keys[0])
    requires match Lookup(sheetData, resource) case None => true case Some(n) => !n.List?
    requires Build(sheetData, resource, keys, v).Ok?
    ensures Lookup(Build(sheetData, resource, keys, v).value, resource).value.List?
  {
    var (es, root) := Setdefault(sheetData, resource, EmptyMap);
    var j := DigitsValue(keys[0]);
    if |keys| > 1 {
      assert Enter(root, [], keys[0]) == Ok((List(FreshList(j)), [Slot(j)]));
      RunKeepsList(List(FreshList(j)), [Slot(j)], keys[1..], v);
    }
  }

  /** Once the resource is a list, a row for it either raises or leaves it a
      list: a named piece first raises, an index first pads the list. */
  lemma ListStaysList(sheetData: Entries, resource: Key, keys: seq<string>, v: Node)
    requires keys != [] && Lookup(sheetData, resource).Some? && Lookup(sheetData, resource).value.List?
    requires Build(sheetData, resource, keys, v).Ok?
    ensures Lookup(Build(sheetData, resource, keys, v).value, resource).value.List?
  {
    var root := Lookup(sheetData, resource).value;
    if |keys| > 1 {
      var next := Enter(root, [], keys[0]).value;
      RunKeepsList(next.0, next.1, keys[1..], v);
    }
  }

  /** What such a row builds does not depend on what the resource held. */
  lemma DigitFirstForgets(a: Entries, b: Entries, resource: Key, keys: seq<string>, v: Node)
    requires keys != [] && IsDigitString(keys[0])
    requires match Lookup(a, resource) case None => true case Some(n) => !n.List?
    requires match Lookup(b, resource) case None => true case Some(n) => !n.List?
    ensures Build(a, resource, keys, v).Ok? == Build(b, resource, keys, v).Ok?
    ensures Build(a, resource, keys, v).Ok? ==>
      Lookup(Build(a, resource, keys, v).value, resource) == Lookup(Build(b, resource, keys, v).value, resource)
  {
    var ra := Setdefault(a, resource, EmptyMap).1;
    var rb := Setdefault(b, resource, EmptyMap).1;
    if |keys| > 1 {
      assert Enter(ra, [], keys[0]) == Enter(rb, [], keys[0]);
    }
  }
}
