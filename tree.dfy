/** The nested structure every converter builds: Python dicts (insertion-ordered,
    unique keys), lists, scalars and `None`, and the dict operations the
    converters use (`d[k]`, `d[k] = v`, `k in d`, `d.setdefault(k, x)`, `d.update(e)`). */
module Tree {
  import opened PyValues

  /** A dict key: a string, or an int (2.py turns digit pieces into int keys). */
  datatype Key = S(name: string) | I(index: int)

  /** A Python object in the tree. `Null` is `None`, which the builders use as a
      list placeholder and which an empty cell also becomes. */
  datatype Node = Map(entries: seq<(Key, Node)>) | List(items: seq<Node>) | Scalar(v: Value) | Null

  type Entries = seq<(Key, Node)>

  /** A fresh `{}`. */
  const EmptyMap: Node := Map([])

  function KeysOf(es: Entries): (ks: seq<Key>)
    ensures |ks| == |es|
  {
    seq(|es|, i requires 0 <= i < |es| => es[i].0)
  }

  /** Python dicts never hold the same key twice. */
  ghost predicate UniqueKeys(es: Entries) {
    forall i, j :: 0 <= i < j < |es| ==> es[i].0 != es[j].0
  }

  /** Position of key `k`, or `|es|` when it is absent. */
  function Find(es: Entries, k: Key): (i: nat)
    ensures i <= |es|
    ensures i < |es| ==> es[i].0 == k
    ensures forall j :: 0 <= j < i ==> es[j].0 != k
  {
    if es == [] then 0 else if es[0].0 == k then 0 else 1 + Find(es[1..], k)
  }

  /** The three facts Find promises determine it. */
  lemma FindIs(es: Entries, k: Key, i: nat)
    requires i <= |es|
    requires i < |es| ==> es[i].0 == k
    requires forall j :: 0 <= j < i ==> es[j].0 != k
    ensures Find(es, k) == i
  {
  }

  /** Two entry lists with the same keys in the same places find keys alike. */
  lemma FindSameKeys(a: Entries, b: Entries, k: Key)
    requires |a| == |b|
    requires forall j :: 0 <= j < |a| ==> a[j].0 == b[j].0
    ensures Find(a, k) == Find(b, k)
  {
    FindIs(b, k, Find(a, k));
  }

  predicate Has(es: Entries, k: Key) {
    Find(es, k) < |es|
  }

  /** `d.get(k)`. */
  function Lookup(es: Entries, k: Key): (r: Option<Node>)
    ensures r.Some? <==> Has(es, k)
  {
    var i := Find(es, k);
    if i < |es| then Some(es[i].1) else None
  }

  /** `d[k] = v`: an existing key keeps its place, a new key goes last. */
  function Put(es: Entries, k: Key, v: Node): (r: Entries)
    ensures Lookup(r, k) == Some(v)
    ensures forall k' :: k' != k ==> Lookup(r, k') == Lookup(es, k')
    ensures Has(es, k) ==> KeysOf(r) == KeysOf(es)
    ensures !Has(es, k) ==> KeysOf(r) == KeysOf(es) + [k]
  {
    var i := Find(es, k);
    if i < |es| then
      var r := es[i := (k, v)];
      forall k' ensures Find(r, k') == Find(es, k') {
        FindSameKeys(r, es, k');
      }
      assert KeysOf(r) == KeysOf(es);
      r
    else
      var r := es + [(k, v)];
      FindIs(r, k, |es|);
      forall k' | k' != k ensures Lookup(r, k') == Lookup(es, k') {
        var j := Find(es, k');
        if j < |es| {
          FindIs(r, k', j);
        } else {
          FindIs(r, k', |r|);
        }
      }
      assert KeysOf(r) == KeysOf(es) + [k];
      r
  }

  /** `d[k] = v` keeps the keys of a dict distinct. */
  lemma PutUnique(es: Entries, k: Key, v: Node)
    requires UniqueKeys(es)
    ensures UniqueKeys(Put(es, k, v))
  {
    var r := Put(es, k, v);
    if Has(es, k) {
      assert forall i :: 0 <= i < |r| ==> r[i].0 == KeysOf(r)[i] == KeysOf(es)[i] == es[i].0;
    } else {
      assert forall i :: 0 <= i < |es| ==> r[i].0 == KeysOf(r)[i] == KeysOf(es)[i] == es[i].0;
      assert r[|es|].0 == KeysOf(r)[|es|] == k;
      forall i | 0 <= i < |es| ensures es[i].0 != k {
        FindIs(es, k, |es|);
      }
    }
  }

  /** After `d[k] = v` the dict holds `k` and the keys it held. */
  lemma PutHas(es: Entries, k: Key, v: Node)
    ensures forall k' :: Has(Put(es, k, v), k') <==> Has(es, k') || k' == k
  {
    forall k' ensures Has(Put(es, k, v), k') <==> Has(es, k') || k' == k {
      assert Lookup(Put(es, k, v), k').Some? <==> Has(Put(es, k, v), k');
    }
  }

  /** `d[k] = v` brings in no entry but `(k, v)`. */
  lemma PutMembers(es: Entries, k: Key, v: Node)
    ensures forall e :: e in Put(es, k, v) ==> e in es || e == (k, v)
  {
    var i := Find(es, k);
    if i < |es| {
      forall e | e in es[i := (k, v)] ensures e in es || e == (k, v) {
        var j :| 0 <= j < |es| && es[i := (k, v)][j] == e;
        if j != i {
          assert es[j] == e;
        }
      }
    }
  }

  /** Writing a key twice keeps only the second write. */
  lemma PutPut(es: Entries, k: Key, a: Node, b: Node)
    ensures Put(Put(es, k, a), k, b) == Put(es, k, b)
  {
    var i := Find(es, k);
    if i == |es| {
      FindIs(es + [(k, a)], k, |es|);
    }
  }

  /** Writing back the value a key already holds changes nothing. */
  lemma PutSame(es: Entries, k: Key)
    requires Has(es, k)
    ensures Put(es, k, Lookup(es, k).value) == es
  {
  }

  /** `d.setdefault(k, x)`: the dict after the call and the child it returns. An
      existing child is kept; `x` is inserted only when `k` is absent. */
  function Setdefault(es: Entries, k: Key, x: Node): (r: (Entries, Node))
    ensures Lookup(r.0, k) == Some(r.1)
    ensures Has(es, k) ==> r.0 == es && Lookup(es, k) == Some(r.1)
    ensures !Has(es, k) ==> r.0 == Put(es, k, x) && r.1 == x
  {
    match Lookup(es, k)
    case Some(c) => (es, c)
    case None => (Put(es, k, x), x)
  }

  /** `a.update(b)`: each entry of `b`, in order, is written into `a`. */
  function Update(a: Entries, b: Entries): (r: Entries)
    ensures UniqueKeys(a) ==> UniqueKeys(r)
    ensures forall e :: e in r ==> e in a || e in b
    decreases |b|
  {
    if b == [] then a
    else
      PutMembers(a, b[0].0, b[0].1);
      assert UniqueKeys(a) ==> UniqueKeys(Put(a, b[0].0, b[0].1)) by {
        if UniqueKeys(a) {
          PutUnique(a, b[0].0, b[0].1);
        }
      }
      assert forall e :: e in b[1..] ==> e in b;
      Update(Put(a, b[0].0, b[0].1), b[1..])
  }

  /** After `a.update(b)`, a key of `b` holds `b`'s value wholesale, and every
      other key holds what it held in `a`. */
  lemma {:induction false} UpdateLookup(a: Entries, b: Entries, k: Key)
    requires UniqueKeys(b)
    ensures Lookup(Update(a, b), k) == if Has(b, k) then Lookup(b, k) else Lookup(a, k)
    decreases |b|
  {
    if b != [] {
      var a', rest := Put(a, b[0].0, b[0].1), b[1..];
      assert UniqueKeys(rest) by {
        forall i, j | 0 <= i < j < |rest| ensures rest[i].0 != rest[j].0 {
          assert rest[i] == b[i + 1] && rest[j] == b[j + 1];
        }
      }
      UpdateLookup(a', rest, k);
      var j := Find(rest, k);
      assert j < |rest| ==> rest[j] == b[j + 1];
      if b[0].0 != k {
        assert Find(b, k) == 1 + j;
      }
    }
  }

  /** `len(seq)` padded to at least `n` items with `filler` at the end. */
  function Padded(items: seq<Node>, n: nat, filler: Node): (r: seq<Node>)
    ensures |r| == if |items| < n then n else |items|
    ensures r[..|items|] == items
    ensures forall i :: |items| <= i < |r| ==> r[i] == filler
    decreases n - |items|
  {
    if |items| < n then Padded(items + [filler], n, filler) else items
  }

  /** `while len(xs) <= idx: xs.append(filler)`, growing a list to `n` items. */
  method PadList(xs: seq<Node>, n: nat, filler: Node) returns (r: seq<Node>)
    ensures r == Padded(xs, n, filler)
  {
    r := xs;
    while |r| < n
      invariant Padded(r, n, filler) == Padded(xs, n, filler)
      decreases n - |r|
    {
      r := r + [filler];
    }
  }

  // ---------------------------------------------------------------------------
  // Sizes, for the termination of the recursive renderers

  function Sum(xs: seq<nat>): nat {
    if xs == [] then 0 else xs[0] + Sum(xs[1..])
  }

  /** The number of nodes in a tree. */
  function Size(n: Node): (r: nat)
    ensures r >= 1
    decreases n
  {
    match n
    case Map(es) => 1 + Sum(seq(|es|, i requires 0 <= i < |es| => (assert es[i] in es; Size(es[i].1))))
    case List(xs) => 1 + Sum(seq(|xs|, i requires 0 <= i < |xs| => (assert xs[i] in xs; Size(xs[i]))))
    case _ => 1
  }

  /** The number of nodes below a dict's entries. */
  function EntriesSize(es: Entries): nat {
    Sum(seq(|es|, i requires 0 <= i < |es| => Size(es[i].1)))
  }

  /** The number of nodes below a list's items. */
  function ItemsSize(xs: seq<Node>): nat {
    Sum(seq(|xs|, i requires 0 <= i < |xs| => Size(xs[i])))
  }

  lemma SizeOfContainer(n: Node)
    ensures n.Map? ==> Size(n) == 1 + EntriesSize(n.entries)
    ensures n.List? ==> Size(n) == 1 + ItemsSize(n.items)
  {
    match n
    case Map(es) =>
      assert seq(|es|, i requires 0 <= i < |es| => (assert es[i] in es; Size(es[i].1)))
        == seq(|es|, i requires 0 <= i < |es| => Size(es[i].1));
    case List(xs) =>
      assert seq(|xs|, i requires 0 <= i < |xs| => (assert xs[i] in xs; Size(xs[i])))
        == seq(|xs|, i requires 0 <= i < |xs| => Size(xs[i]));
    case _ =>
  }

  /** The first entry and the rest share the entries' size. */
  lemma EntriesSizeCons(es: Entries)
    requires es != []
    ensures EntriesSize(es) == Size(es[0].1) + EntriesSize(es[1..])
  {
    var rest := es[1..];
    assert seq(|es|, i requires 0 <= i < |es| => Size(es[i].1))[1..]
      == seq(|rest|, i requires 0 <= i < |rest| => Size(rest[i].1));
  }

  lemma ItemsSizeCons(xs: seq<Node>)
    requires xs != []
    ensures ItemsSize(xs) == Size(xs[0]) + ItemsSize(xs[1..])
  {
    var rest := xs[1..];
    assert seq(|xs|, i requires 0 <= i < |xs| => Size(xs[i]))[1..]
      == seq(|rest|, i requires 0 <= i < |rest| => Size(rest[i]));
  }
}
