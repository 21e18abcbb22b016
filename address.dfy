/** Where a builder's cursor stands in the tree. The Python builders rebind a
    variable (`current`, `cur`) to a nested dict or list and mutate it in place;
    here the cursor is the address of that container (the keys and slots taken
    from the root), and a mutation through the cursor replaces the subtree at
    that address (`Plug`). */
module Address {
  import opened PyValues
  import opened Tree

  /** One step down: into a dict's key, or into a list's slot. */
  datatype Step = Field(k: Key) | Slot(i: nat)

  function Child(n: Node, s: Step): Option<Node> {
    match s
    case Field(k) => if n.Map? then Lookup(n.entries, k) else None
    case Slot(i) => if n.List? && i < |n.items| then Some(n.items[i]) else None
  }

  /** Mutating the container's child in place: `d[k] = c` or `xs[i] = c`. */
  function SetChild(n: Node, s: Step, c: Node): (r: Node)
    requires Child(n, s).Some?
    ensures Child(r, s) == Some(c)
  {
    match s
    case Field(k) => Map(Put(n.entries, k, c))
    case Slot(i) => List(n.items[i := c])
  }

  /** The node at address `a`, if the address leads anywhere. */
  function At(n: Node, a: seq<Step>): Option<Node>
    decreases |a|
  {
    if a == [] then Some(n)
    else match Child(n, a[0])
      case None => None
      case Some(c) => At(c, a[1..])
  }

  /** The tree after the node at address `a` is replaced by `sub`. */
  function Plug(n: Node, a: seq<Step>, sub: Node): Node
    requires At(n, a).Some?
    decreases |a|
  {
    if a == [] then sub else SetChild(n, a[0], Plug(Child(n, a[0]).value, a[1..], sub))
  }

  lemma {:induction false} AtAppend(n: Node, a: seq<Step>, b: seq<Step>)
    ensures At(n, a + b) == match At(n, a) case None => None case Some(x) => At(x, b)
    decreases |a|
  {
    if a != [] {
      assert (a + b)[0] == a[0] && (a + b)[1..] == a[1..] + b;
      match Child(n, a[0])
      case None =>
      case Some(c) => AtAppend(c, a[1..], b);
    } else {
      assert a + b == b;
    }
  }

  /** After a replacement, the address holds the new subtree. */
  lemma {:induction false} PlugAt(n: Node, a: seq<Step>, sub: Node)
    requires At(n, a).Some?
    ensures At(Plug(n, a, sub), a) == Some(sub)
    decreases |a|
  {
    if a != [] {
      PlugAt(Child(n, a[0]).value, a[1..], sub);
    }
  }

  /** Replacing a node by itself changes nothing. */
  lemma {:induction false} PlugSelf(n: Node, a: seq<Step>)
    requires At(n, a).Some?
    ensures Plug(n, a, At(n, a).value) == n
    decreases |a|
  {
    if a != [] {
      var c := Child(n, a[0]).value;
      PlugSelf(c, a[1..]);
      match a[0]
      case Field(k) => PutSame(n.entries, k);
      case Slot(i) =>
    }
  }

  /** Of two replacements at the same address, the second wins. */
  lemma {:induction false} PlugPlug(n: Node, a: seq<Step>, x: Node, y: Node)
    requires At(n, a).Some?
    ensures At(Plug(n, a, x), a).Some?
    ensures Plug(Plug(n, a, x), a, y) == Plug(n, a, y)
    decreases |a|
  {
    PlugAt(n, a, x);
    if a != [] {
      var c := Child(n, a[0]).value;
      PlugPlug(c, a[1..], x, y);
      match a[0]
      case Field(k) => PutPut(n.entries, k, Plug(c, a[1..], x), Plug(c, a[1..], y));
      case Slot(i) =>
    }
  }

  /** Replacing deep inside a subtree is replacing the subtree by its updated copy. */
  lemma {:induction false} PlugAppend(n: Node, a: seq<Step>, b: seq<Step>, y: Node)
    requires At(n, a).Some? && At(At(n, a).value, b).Some?
    ensures At(n, a + b).Some?
    ensures Plug(n, a + b, y) == Plug(n, a, Plug(At(n, a).value, b, y))
    decreases |a|
  {
    AtAppend(n, a, b);
    if a != [] {
      assert (a + b)[0] == a[0] && (a + b)[1..] == a[1..] + b;
      PlugAppend(Child(n, a[0]).value, a[1..], b, y);
    } else {
      assert a + b == b;
    }
  }

  /** Moving the cursor: after the container at `a` is replaced by `m`, the
      address `a + b` leads to what `b` leads to inside `m`, and replacing there
      is replacing `m` by its updated copy. */
  lemma Descend(n: Node, a: seq<Step>, m: Node, b: seq<Step>, y: Node)
    requires At(n, a).Some? && At(m, b).Some?
    ensures At(Plug(n, a, m), a + b) == At(m, b)
    ensures Plug(Plug(n, a, m), a + b, y) == Plug(n, a, Plug(m, b, y))
  {
    var t := Plug(n, a, m);
    PlugAt(n, a, m);
    AtAppend(t, a, b);
    PlugAppend(t, a, b, y);
    PlugPlug(n, a, m, Plug(m, b, y));
  }

  /** The whole tree after the subtree at `a` has been rebuilt, or the failure
      that stopped the rebuilding. */
  function PlugResult(n: Node, a: seq<Step>, w: Result<Node>): Result<Node>
    requires At(n, a).Some?
  {
    match w
    case Raises => Raises
    case Ok(c) => Ok(Plug(n, a, c))
  }
}
