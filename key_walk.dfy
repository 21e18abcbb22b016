/** The plain dict builder of main.py (lines 30-36) and 2.py (lines 47-62). The
    resource's dict is taken with `setdefault(resource, {})`; every piece of the
    dotted path but the last is a key whose child is made `{}` when absent and
    then entered; the last piece is assigned. No list is ever made, and a path
    that runs into anything but a dict raises. */
module KeyWalk {
  import opened PyValues
  import opened Tree
  import opened Address

  /** main.py keeps every piece as a string key. */
  function StrKeys(parts: seq<string>): seq<Key> {
    seq(|parts|, i requires 0 <= i < |parts| => S(parts[i]))
  }

  /** 2.py turns a piece of ASCII digits into an int key (`int(key)`). */
  function IntKey(p: string): (k: Key)
    ensures k.I? <==> IsDigitString(p)
    ensures k.I? ==> k.index >= 0 && IsDigitString(p) && DigitsValue(NatToDecimal(k.index)) == DigitsValue(p)
    ensures k.S? ==> k.name == p
  {
    if IsDigitString(p) then I(DigitsValue(p)) else S(p)
  }

  function IntKeys(parts: seq<string>): seq<Key> {
    seq(|parts|, i requires 0 <= i < |parts| => IntKey(parts[i]))
  }

  /** The address a sequence of keys names. */
  function FieldSteps(ks: seq<Key>): seq<Step> {
    seq(|ks|, i requires 0 <= i < |ks| => Field(ks[i]))
  }

  /** The tree after the walk from `n` along `ks` has written `v`. */
  function WalkKeys(n: Node, ks: seq<Key>, v: Node): (r: Result<Node>)
    requires ks != []
    ensures r.Ok? ==> n.Map? && r.value.Map?
    ensures r.Ok? ==> Has(r.value.entries, ks[0])
    ensures r.Ok? ==> forall k :: k != ks[0] ==> Lookup(r.value.entries, k) == Lookup(n.entries, k)
    decreases |ks|
  {
    if !n.Map? then Raises
    else if |ks| == 1 then Ok(Map(Put(n.entries, ks[0], v)))
    else
      var (es, c) := Setdefault(n.entries, ks[0], EmptyMap);
      match WalkKeys(c, ks[1..], v)
      case Raises => Raises
      case Ok(c') => Ok(Map(Put(es, ks[0], c')))
  }

  /** The walk goes into the child at `k` once the dict at the cursor has it. */
  lemma KeyStep(t: Node, cur: seq<Step>, m: Node, k: Key, rest: seq<Key>, v: Node)
    requires At(t, cur).Some? && m.Map? && Has(m.entries, k) && rest != []
    ensures At(Plug(t, cur, m), cur + [Field(k)]).Some?
    ensures PlugResult(Plug(t, cur, m), cur + [Field(k)], WalkKeys(At(Plug(t, cur, m), cur + [Field(k)]).value, rest, v))
         == PlugResult(t, cur, PlugResult(m, [Field(k)], WalkKeys(Lookup(m.entries, k).value, rest, v)))
  {
    var c := Lookup(m.entries, k).value;
    assert At(m, [Field(k)]) == At(c, []);
    var w := WalkKeys(c, rest, v);
    Descend(t, cur, m, [Field(k)], if w.Ok? then w.value else m);
  }

  /** An inner key: the walk continues from the child the dict now holds. */
  lemma Enter(n: Node, ks: seq<Key>, v: Node)
    requires n.Map? && |ks| > 1
    ensures var es := Setdefault(n.entries, ks[0], EmptyMap).0;
      WalkKeys(n, ks, v) == PlugResult(Map(es), [Field(ks[0])], WalkKeys(Lookup(es, ks[0]).value, ks[1..], v))
  {
    var (es, c) := Setdefault(n.entries, ks[0], EmptyMap);
    var w := WalkKeys(c, ks[1..], v);
    if w.Ok? {
      assert Plug(Map(es), [Field(ks[0])], w.value) == Map(Put(es, ks[0], Plug(c, [], w.value)));
    }
  }

  /** `current = root; for key in keys[:-1]: ...; current[keys[-1]] = value`,
      with the root passed in and its new contents handed back. */
  method SetPath(root: Node, ks: seq<Key>, v: Node) returns (r: Result<Node>)
    requires ks != []
    ensures r == WalkKeys(root, ks, v)
  {
    var t, cur, rest := root, [], ks;
    while |rest| > 1
      invariant rest != [] && At(t, cur).Some?
      invariant PlugResult(t, cur, WalkKeys(At(t, cur).value, rest, v)) == WalkKeys(root, ks, v)
      decreases |rest|
    {
      var current := At(t, cur).value;
      if !current.Map? {
        return Raises;
      }
      var k := rest[0];
      var es := current.entries;
      if !Has(es, k) {
        es := Put(es, k, EmptyMap);
      }
      assert es == Setdefault(current.entries, k, EmptyMap).0;
      SetPathStep(t, cur, rest, v);
      t, cur, rest := Plug(t, cur, Map(es)), cur + [Field(k)], rest[1..];
    }
    var current := At(t, cur).value;
    if !current.Map? {
      return Raises;
    }
    r := Ok(Plug(t, cur, Map(Put(current.entries, rest[0], v))));
  }

  /** One turn of the loop of `SetPath`: the dict at the cursor gets its child
      and the cursor moves into it. */
  lemma SetPathStep(t: Node, cur: seq<Step>, ks: seq<Key>, v: Node)
    requires At(t, cur).Some? && At(t, cur).value.Map? && |ks| > 1
    ensures var m := Map(Setdefault(At(t, cur).value.entries, ks[0], EmptyMap).0);
      At(Plug(t, cur, m), cur + [Field(ks[0])]).Some? &&
      PlugResult(Plug(t, cur, m), cur + [Field(ks[0])],
        WalkKeys(At(Plug(t, cur, m), cur + [Field(ks[0])]).value, ks[1..], v))
      == PlugResult(t, cur, WalkKeys(At(t, cur).value, ks, v))
  {
    var current := At(t, cur).value;
    var m := Map(Setdefault(current.entries, ks[0], EmptyMap).0);
    Enter(current, ks, v);
    KeyStep(t, cur, m, ks[0], ks[1..], v);
  }

  // ---------------------------------------------------------------------------
  // Properties of the walk

  /** A walk through fresh dicts only never raises. */
  lemma {:induction false} FreshWalk(ks: seq<Key>, v: Node)
    requires ks != []
    ensures WalkKeys(EmptyMap, ks, v).Ok?
    decreases |ks|
  {
    if |ks| > 1 {
      FreshWalk(ks[1..], v);
    }
  }

  /** Some node the path passes through exists and is not a dict. */
  ghost predicate Blocked(n: Node, ks: seq<Key>) {
    exists i :: 0 <= i < |ks| && At(n, FieldSteps(ks[..i])).Some? && !At(n, FieldSteps(ks[..i])).value.Map?
  }

  /** The address of a longer prefix starts with the first key. */
  lemma FieldStepsCons(ks: seq<Key>, i: nat)
    requires 1 <= i <= |ks|
    ensures FieldSteps(ks[..i]) == [Field(ks[0])] + FieldSteps(ks[1..][..i - 1])
  {
  }

  /** The builder raises exactly when the path runs into something that is not
      a dict: a string, number, list or `None` where a dict is needed. */
  lemma {:induction false} WalkKeysRaises(n: Node, ks: seq<Key>, v: Node)
    requires ks != []
    ensures WalkKeys(n, ks, v).Raises? <==> Blocked(n, ks)
    decreases |ks|
  {
    assert FieldSteps(ks[..0]) == [];
    if !n.Map? {
      assert At(n, FieldSteps(ks[..0])) == Some(n);
    } else if |ks| == 1 {
    } else {
      var k, rest := ks[0], ks[1..];
      var (es, c) := Setdefault(n.entries, k, EmptyMap);
      forall i | 1 <= i <= |ks|
        ensures At(n, FieldSteps(ks[..i])) == if Has(n.entries, k) then At(c, FieldSteps(rest[..i - 1])) else None
      {
        FieldStepsCons(ks, i);
      }
      if Has(n.entries, k) {
        WalkKeysRaises(c, rest, v);
        if Blocked(c, rest) {
          var i :| 0 <= i < |rest| && At(c, FieldSteps(rest[..i])).Some? && !At(c, FieldSteps(rest[..i])).value.Map?;
          assert At(n, FieldSteps(ks[..i + 1])) == At(c, FieldSteps(rest[..i]));
        }
        if Blocked(n, ks) {
          var i :| 0 <= i < |ks| && At(n, FieldSteps(ks[..i])).Some? && !At(n, FieldSteps(ks[..i])).value.Map?;
          assert i != 0;
          assert At(n, FieldSteps(ks[..i])) == At(c, FieldSteps(rest[..i - 1]));
        }
      } else {
        FreshWalk(rest, v);
      }
    }
  }

  /** Writing a value and reading it back: the value sits at the address the
      keys name. */
  lemma {:induction false} RoundTrip(n: Node, ks: seq<Key>, v: Node)
    requires ks != [] && WalkKeys(n, ks, v).Ok?
    ensures At(WalkKeys(n, ks, v).value, FieldSteps(ks)) == Some(v)
    decreases |ks|
  {
    var t := WalkKeys(n, ks, v).value;
    var k := ks[0];
    var a := FieldSteps(ks);
    assert a[0] == Field(k) && a[1..] == FieldSteps(ks[1..]);
    if |ks| > 1 {
      var (es, c) := Setdefault(n.entries, k, EmptyMap);
      RoundTrip(c, ks[1..], v);
      assert Child(t, Field(k)) == Some(WalkKeys(c, ks[1..], v).value);
    }
  }

  /** Writing the same path twice keeps only the second value; nothing the
      first write created is left behind that the second would not create. */
  lemma {:induction false} LastWriteWins(n: Node, ks: seq<Key>, a: Node, b: Node)
    requires ks != [] && WalkKeys(n, ks, a).Ok?
    ensures WalkKeys(WalkKeys(n, ks, a).value, ks, b) == WalkKeys(n, ks, b)
    decreases |ks|
  {
    var k := ks[0];
    if |ks| == 1 {
      PutPut(n.entries, k, a, b);
    } else {
      var (es, c) := Setdefault(n.entries, k, EmptyMap);
      var ca := WalkKeys(c, ks[1..], a).value;
      LastWriteWins(c, ks[1..], a, b);
      var t := Map(Put(es, k, ca));
      assert Setdefault(t.entries, k, EmptyMap) == (t.entries, ca);
      if WalkKeys(c, ks[1..], b).Ok? {
        PutPut(es, k, ca, WalkKeys(c, ks[1..], b).value);
      }
    }
  }

  /** In 2.py two pieces name the same key exactly when they are the same
      text or both are digit strings of the same number: a leading zero does
      not make a new key (`x.07` and `x.7` write the same place), and an int
      key never meets a string key (`0` is not `"0"`). */
  lemma LeadingZerosShareKey(p: string, q: string)
    ensures IntKey(p) == IntKey(q) <==>
      p == q || (IsDigitString(p) && IsDigitString(q) && DigitsValue(p) == DigitsValue(q))
    ensures IsDigitString(p) ==> IntKey("0" + p) == IntKey(p) && "0" + p != p
  {
    if IsDigitString(p) {
      assert IsDigitString("0" + p) by {
        assert forall i :: 0 < i < |"0" + p| ==> ("0" + p)[i] == p[i - 1];
      }
      LeadingZero(p);
    }
  }

  /** A zero in front of a run of digits leaves its value alone. */
  lemma {:induction false} LeadingZero(p: string)
    requires AllDigits(p)
    ensures AllDigits("0" + p) && DigitsValue("0" + p) == DigitsValue(p)
    decreases |p|
  {
    assert forall i :: 0 < i < |"0" + p| ==> ("0" + p)[i] == p[i - 1];
    if p == [] {
      assert "0" + p == "0";
    } else {
      var q := p[..|p| - 1];
      assert AllDigits(q);
      LeadingZero(q);
      assert ("0" + p)[..|"0" + p| - 1] == "0" + q;
    }
  }
}
