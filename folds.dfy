/** The loops of the legacy scripts that run over rows, sheets and files and
    stop at the first exception, as folds; and the insertion-ordered dict of
    lists the loaders of 6.py and main.py collect their results in. */
module Folds {
  import opened PyValues

  /** `acc` after `step` has been applied to each element in turn, or the first
      exception. */
  function Fold<A(!new), X(!new)>(xs: seq<X>, init: A, step: (A, X) -> Result<A>): (r: Result<A>)
    ensures (forall a, x :: step(a, x) == Ok(a)) ==> r == Ok(init)
    decreases |xs|
  {
    if xs == [] then Ok(init)
    else match Fold(xs[..|xs| - 1], init, step)
      case Raises => Raises
      case Ok(acc) => step(acc, xs[|xs| - 1])
  }

  lemma FoldStep<A(!new), X(!new)>(xs: seq<X>, i: nat, init: A, step: (A, X) -> Result<A>)
    requires i < |xs|
    ensures Fold(xs[..i + 1], init, step) ==
      match Fold(xs[..i], init, step) case Raises => Raises case Ok(acc) => step(acc, xs[i])
  {
    assert xs[..i + 1][..i] == xs[..i];
  }

  /** Once an element has raised, the rest of the loop does not run. */
  lemma {:induction false} FoldStops<A(!new), X(!new)>(xs: seq<X>, i: nat, init: A, step: (A, X) -> Result<A>)
    requires i <= |xs| && Fold(xs[..i], init, step).Raises?
    ensures Fold(xs, init, step).Raises?
    decreases |xs| - i
  {
    if i < |xs| {
      FoldStep(xs, i, init, step);
      FoldStops(xs, i + 1, init, step);
    } else {
      assert xs[..i] == xs;
    }
  }

  /** A property every step keeps holds of the result. */
  lemma {:induction false} FoldKeeps<A(!new), X(!new)>(xs: seq<X>, init: A, step: (A, X) -> Result<A>, p: A -> bool)
    requires p(init)
    requires forall a, x :: p(a) && step(a, x).Ok? ==> p(step(a, x).value)
    requires Fold(xs, init, step).Ok?
    ensures p(Fold(xs, init, step).value)
    decreases |xs|
  {
    if xs != [] {
      FoldKeeps(xs[..|xs| - 1], init, step, p);
    }
  }

  /** Running the loop over a prefix and then on from where it stopped. */
  lemma {:induction false} FoldSplit<A(!new), X(!new)>(xs: seq<X>, k: nat, init: A, step: (A, X) -> Result<A>)
    requires k <= |xs|
    ensures Fold(xs, init, step) ==
      match Fold(xs[..k], init, step) case Raises => Raises case Ok(a) => Fold(xs[k..], a, step)
    decreases |xs|
  {
    if k == |xs| {
      assert xs[..k] == xs && xs[k..] == [];
    } else {
      var last := |xs| - 1;
      FoldSplit(xs[..last], k, init, step);
      assert xs[..last][..k] == xs[..k];
      assert xs[k..][..|xs[k..]| - 1] == xs[..last][k..];
      assert xs[k..][|xs[k..]| - 1] == xs[last];
    }
  }

  /** The elements `keep` accepts, in order. */
  function Filter<X(!new)>(xs: seq<X>, keep: X -> bool): (ys: seq<X>)
    ensures forall y :: y in ys <==> y in xs && keep(y)
    decreases |xs|
  {
    if xs == [] then []
    else
      var rest := Filter(xs[..|xs| - 1], keep);
      assert forall y :: y in xs <==> y in xs[..|xs| - 1] || y == xs[|xs| - 1];
      if keep(xs[|xs| - 1]) then rest + [xs[|xs| - 1]] else rest
  }

  /** Filtering a concatenation filters each part and keeps them in order;
      with `FilterOne` this fixes the order and the number of copies of every
      element kept. */
  lemma {:induction false} FilterAppend<X(!new)>(xs: seq<X>, ys: seq<X>, keep: X -> bool)
    ensures Filter(xs + ys, keep) == Filter(xs, keep) + Filter(ys, keep)
    decreases |ys|
  {
    if ys == [] {
      assert xs + ys == xs;
    } else {
      var prefix, last := ys[..|ys| - 1], ys[|ys| - 1];
      assert (xs + ys)[..|xs + ys| - 1] == xs + prefix;
      FilterAppend(xs, prefix, keep);
    }
  }

  /** A single element is kept exactly when `keep` accepts it. */
  lemma FilterOne<X(!new)>(x: X, keep: X -> bool)
    ensures Filter([x], keep) == if keep(x) then [x] else []
  {
    assert [x][..0] == [];
  }

  /** Elements the step passes over can be left out beforehand. */
  lemma {:induction false} FoldSkips<A(!new), X(!new)>(xs: seq<X>, init: A, step: (A, X) -> Result<A>, keep: X -> bool)
    requires forall a, x :: !keep(x) ==> step(a, x) == Ok(a)
    ensures Fold(xs, init, step) == Fold(Filter(xs, keep), init, step)
    decreases |xs|
  {
    if xs != [] {
      var prefix, last := xs[..|xs| - 1], xs[|xs| - 1];
      FoldSkips(prefix, init, step, keep);
      var ys := Filter(prefix, keep);
      if keep(last) {
        assert (ys + [last])[..|ys|] == ys;
      }
    }
  }

  // ---------------------------------------------------------------------------
  // A dict of lists, keyed by name

  type Collections<X> = seq<(string, seq<X>)>

  /** Position of `name`, or `|cs|` when it is absent. */
  function FindName<X>(cs: Collections<X>, name: string): (i: nat)
    ensures i <= |cs|
    ensures i < |cs| ==> cs[i].0 == name
    ensures forall j :: 0 <= j < i ==> cs[j].0 != name
  {
    if cs == [] then 0 else if cs[0].0 == name then 0 else 1 + FindName(cs[1..], name)
  }

  /** The three facts FindName promises determine it. */
  lemma FindNameIs<X>(cs: Collections<X>, name: string, i: nat)
    requires i <= |cs|
    requires i < |cs| ==> cs[i].0 == name
    requires forall j :: 0 <= j < i ==> cs[j].0 != name
    ensures FindName(cs, name) == i
  {
  }

  /** `cs.get(name, [])`. */
  function ListOf<X>(cs: Collections<X>, name: string): seq<X> {
    var i := FindName(cs, name);
    if i < |cs| then cs[i].1 else []
  }

  /** Whatever `cs.get(name, [])` holds sits in one of the lists. */
  lemma ListOfMembers<X>(cs: Collections<X>, name: string)
    ensures forall x :: x in ListOf(cs, name) ==> exists c :: c in cs && x in c.1
  {
    var i := FindName(cs, name);
    if i < |cs| {
      assert forall x :: x in ListOf(cs, name) ==> cs[i] in cs && x in cs[i].1;
    }
  }

  /** Whatever the lists held, they still hold after `Extend`. */
  lemma ExtendKeeps<X>(cs: Collections<X>, name: string, xs: seq<X>)
    requires name in NamesOf(cs)
    ensures forall c, x :: c in cs && x in c.1 ==> exists c' :: c' in Extend(cs, name, xs) && x in c'.1
    ensures forall x :: x in xs ==> exists c' :: c' in Extend(cs, name, xs) && x in c'.1
  {
    var i := FindName(cs, name);
    var r := Extend(cs, name, xs);
    forall c, x | c in cs && x in c.1 ensures exists c' :: c' in r && x in c'.1 {
      var j :| 0 <= j < |cs| && cs[j] == c;
      assert x in r[j].1;
    }
    forall x | x in xs ensures exists c' :: c' in r && x in c'.1 {
      assert x in r[i].1;
    }
  }

  function NamesOf<X>(cs: Collections<X>): seq<string> {
    seq(|cs|, i requires 0 <= i < |cs| => cs[i].0)
  }

  /** `if name not in cs: cs[name] = []`. */
  function Ensure<X>(cs: Collections<X>, name: string): (r: Collections<X>)
    ensures name in NamesOf(r)
    ensures NamesOf(r) == if name in NamesOf(cs) then NamesOf(cs) else NamesOf(cs) + [name]
    ensures forall n :: ListOf(r, n) == ListOf(cs, n)
  {
    var i := FindName(cs, name);
    if i < |cs| then
      assert NamesOf(cs)[i] == name;
      cs
    else
      var r := cs + [(name, [])];
      assert NamesOf(r) == NamesOf(cs) + [name];
      FindNameIs(r, name, |cs|);
      forall n | n != name ensures ListOf(r, n) == ListOf(cs, n) {
        var j := FindName(cs, n);
        if j < |cs| {
          FindNameIs(r, n, j);
        } else {
          FindNameIs(r, n, |r|);
        }
      }
      r
  }

  /** `cs[name].append(x)` for each `x` of `xs` in turn, once `name` is present. */
  function Extend<X>(cs: Collections<X>, name: string, xs: seq<X>): (r: Collections<X>)
    requires name in NamesOf(cs)
    ensures NamesOf(r) == NamesOf(cs)
    ensures ListOf(r, name) == ListOf(cs, name) + xs
    ensures forall n :: n != name ==> ListOf(r, n) == ListOf(cs, n)
  {
    var i := FindName(cs, name);
    assert i < |cs| by {
      var j :| 0 <= j < |cs| && NamesOf(cs)[j] == name;
    }
    var r := cs[i := (name, cs[i].1 + xs)];
    assert NamesOf(r) == NamesOf(cs);
    assert forall n :: FindName(r, n) == FindName(cs, n) by {
      forall n ensures FindName(r, n) == FindName(cs, n) {
        FindNameSame(r, cs, n);
      }
    }
    r
  }

  lemma ExtendNothing<X>(cs: Collections<X>, name: string)
    requires name in NamesOf(cs)
    ensures Extend(cs, name, []) == cs
  {
    assert cs[FindName(cs, name)].1 + [] == cs[FindName(cs, name)].1;
  }

  /** Appending one run and then another is appending both. */
  lemma ExtendTwice<X>(cs: Collections<X>, name: string, a: seq<X>, b: seq<X>)
    requires name in NamesOf(cs)
    ensures Extend(Extend(cs, name, a), name, b) == Extend(cs, name, a + b)
  {
    FindNameSame(Extend(cs, name, a), cs, name);
    assert cs[FindName(cs, name)].1 + a + b == cs[FindName(cs, name)].1 + (a + b);
  }

  /** The lists of `Ensure(cs, name)` are those of `cs` and perhaps a new empty one. */
  lemma EnsureMembers<X>(cs: Collections<X>, name: string)
    ensures forall c :: c in Ensure(cs, name) ==> c in cs || c == (name, [])
  {
  }

  /** The lists of `Extend(cs, name, xs)` are those of `cs` and the extended one. */
  lemma ExtendMembers<X>(cs: Collections<X>, name: string, xs: seq<X>)
    requires name in NamesOf(cs)
    ensures forall c :: c in Extend(cs, name, xs) ==> c in cs || c == (name, ListOf(cs, name) + xs)
  {
    var i := FindName(cs, name);
    forall c | c in Extend(cs, name, xs) ensures c in cs || c == (name, ListOf(cs, name) + xs) {
      var j :| 0 <= j < |cs| && Extend(cs, name, xs)[j] == c;
      if j != i {
        assert c == cs[j];
      }
    }
  }

  lemma {:induction false} FindNameSame<X>(a: Collections<X>, b: Collections<X>, n: string)
    requires NamesOf(a) == NamesOf(b)
    ensures FindName(a, n) == FindName(b, n)
    decreases |a|
  {
    assert |a| == |NamesOf(a)| == |NamesOf(b)| == |b|;
    if a != [] {
      assert a[0].0 == NamesOf(a)[0] == NamesOf(b)[0] == b[0].0;
      assert NamesOf(a[1..]) == NamesOf(a)[1..] == NamesOf(b)[1..] == NamesOf(b[1..]);
      FindNameSame(a[1..], b[1..], n);
    }
  }
}
