/** JSON-like metadata as the model registry keeps it: `_freeze_value` makes it
    immutable when a record is built, `_canonical_value` turns it back into
    plain lists and dictionaries when the record is fingerprinted or copied. */
module Metadata {
  import opened Common

  /** A leaf stands for its JSON text. A set lists its elements in the order
      Python happens to iterate over them. */
  datatype Value =
    | Leaf(text: string)
    | Dict(entries: map<string, Value>)
    | List(items: seq<Value>)
    | Tuple(items: seq<Value>)
    | SetOf(items: seq<Value>)

  /** `sorted`: it raises (None) on elements it cannot compare. */
  type Sorter = seq<Value> -> Option<seq<Value>>

  ghost predicate SorterOk(sort: Sorter) {
    forall s :: sort(s).Some? ==> multiset(sort(s).value) == multiset(s)
  }

  function Freeze(v: Value): Value {
    match v
    case Leaf(_) => v
    case Dict(entries) => Dict(map k | k in entries :: Freeze(entries[k]))
    case List(items) => Tuple(FreezeAll(items))
    case Tuple(items) => Tuple(FreezeAll(items))
    case SetOf(items) => SetOf(FreezeAll(items))
  }

  function FreezeAll(items: seq<Value>): (r: seq<Value>)
    ensures |r| == |items| && forall i :: 0 <= i < |r| ==> r[i] == Freeze(items[i])
  {
    if items == [] then [] else [Freeze(items[0])] + FreezeAll(items[1..])
  }

  /** `_canonical_value`; None when a set cannot be sorted. */
  function Canonical(sort: Sorter, v: Value): Option<Value> {
    match v
    case Leaf(_) => Some(v)
    case Dict(entries) =>
      if forall k :: k in entries ==> Canonical(sort, entries[k]).Some?
      then Some(Dict(map k | k in entries :: Canonical(sort, entries[k]).value))
      else None
    case List(items) => AsList(CanonicalAll(sort, items))
    case Tuple(items) => AsList(CanonicalAll(sort, items))
    case SetOf(items) =>
      match CanonicalAll(sort, items)
      case None => None
      case Some(children) => AsList(sort(children))
  }

  function AsList(items: Option<seq<Value>>): Option<Value> {
    if items.Some? then Some(List(items.value)) else None
  }

  function CanonicalAll(sort: Sorter, items: seq<Value>): (r: Option<seq<Value>>)
    ensures r.Some? <==> forall i :: 0 <= i < |items| ==> Canonical(sort, items[i]).Some?
    ensures r.Some? ==> |r.value| == |items| && forall i :: 0 <= i < |items| ==>
            r.value[i] == Canonical(sort, items[i]).value
  {
    if items == [] then Some([])
    else
      match (Canonical(sort, items[0]), CanonicalAll(sort, items[1..]))
      case (Some(first), Some(rest)) => Some([first] + rest)
      case _ => None
  }

  /** What `_canonical_value` produces: no tuple and no set anywhere. */
  predicate Plain(v: Value) {
    match v
    case Leaf(_) => true
    case Dict(entries) => forall k :: k in entries ==> Plain(entries[k])
    case List(items) => forall i :: 0 <= i < |items| ==> Plain(items[i])
    case Tuple(_) => false
    case SetOf(_) => false
  }

  lemma {:induction false} CanonicalIsPlain(sort: Sorter, v: Value)
    requires SorterOk(sort) && Canonical(sort, v).Some?
    ensures Plain(Canonical(sort, v).value)
  {
    match v
    case Leaf(_) =>
    case Dict(entries) =>
      forall k | k in entries ensures Plain(Canonical(sort, entries[k]).value) { CanonicalIsPlain(sort, entries[k]); }
    case List(items) => ChildrenArePlain(sort, v, items);
    case Tuple(items) => ChildrenArePlain(sort, v, items);
    case SetOf(items) =>
      ChildrenArePlain(sort, v, items);
      var children := CanonicalAll(sort, items).value;
      var sorted := sort(children).value;
      forall i | 0 <= i < |sorted| ensures Plain(sorted[i]) {
        assert sorted[i] in multiset(children);
      }
  }

  lemma {:induction false} ChildrenArePlain(sort: Sorter, v: Value, items: seq<Value>)
    requires SorterOk(sort) && CanonicalAll(sort, items).Some?
    requires (v.List? || v.Tuple? || v.SetOf?) && items == v.items
    ensures forall child :: child in CanonicalAll(sort, items).value ==> Plain(child)
    decreases v, 0
  {
    forall i | 0 <= i < |items| ensures Plain(Canonical(sort, items[i]).value) { CanonicalIsPlain(sort, items[i]); }
  }

  lemma {:induction false} PlainIsFixed(sort: Sorter, v: Value)
    requires Plain(v)
    ensures Canonical(sort, v) == Some(v) && Canonical(sort, Freeze(v)) == Some(v)
  {
    match v
    case Leaf(_) =>
    case Dict(entries) =>
      forall k | k in entries ensures Canonical(sort, entries[k]) == Some(entries[k])
        && Canonical(sort, Freeze(entries[k])) == Some(entries[k]) {
        PlainIsFixed(sort, entries[k]);
      }
      var frozen := Freeze(v);
      assert forall k :: k in entries ==> Canonical(sort, frozen.entries[k]) == Some(entries[k]);
      assert Canonical(sort, v).value.entries == entries;
      assert Canonical(sort, frozen).value.entries == entries;
    case List(items) =>
      forall i | 0 <= i < |items| ensures Canonical(sort, items[i]) == Some(items[i])
        && Canonical(sort, Freeze(items[i])) == Some(items[i]) {
        PlainIsFixed(sort, items[i]);
      }
      assert CanonicalAll(sort, items).value == items;
      assert CanonicalAll(sort, FreezeAll(items)).value == items;
  }

  /** Copying a record through its dictionary form (canonicalise, then freeze
      again) keeps its canonical form, so also its fingerprint; doing it twice
      is doing it once. */
  lemma {:induction false} CopyKeepsTheCanonicalForm(sort: Sorter, v: Value)
    requires SorterOk(sort) && Canonical(sort, v).Some?
    ensures Canonical(sort, Canonical(sort, v).value) == Canonical(sort, v)
    ensures Canonical(sort, Freeze(Canonical(sort, v).value)) == Canonical(sort, v)
  {
    CanonicalIsPlain(sort, v);
    PlainIsFixed(sort, Canonical(sort, v).value);
  }

  /** Freezing twice is freezing once, and it never changes the canonical form,
      as long as `sorted` answers for the same elements. */
  lemma {:induction false} FreezeIsNeutral(sort: Sorter, v: Value)
    ensures Freeze(Freeze(v)) == Freeze(v)
    ensures Canonical(sort, Freeze(v)) == Canonical(sort, v)
  {
    match v
    case Leaf(_) =>
    case Dict(entries) =>
      forall k | k in entries
        ensures Freeze(Freeze(entries[k])) == Freeze(entries[k])
                && Canonical(sort, Freeze(entries[k])) == Canonical(sort, entries[k])
      {
        FreezeIsNeutral(sort, entries[k]);
      }
      var frozen := Freeze(v);
      assert forall k :: k in entries ==> Canonical(sort, frozen.entries[k]) == Canonical(sort, entries[k]);
      if Canonical(sort, v).Some? {
        assert Canonical(sort, frozen).value.entries == Canonical(sort, v).value.entries;
      }
    case List(items) => FreezeAllIsNeutral(sort, v, items);
    case Tuple(items) => FreezeAllIsNeutral(sort, v, items);
    case SetOf(items) => FreezeAllIsNeutral(sort, v, items);
  }

  lemma {:induction false} FreezeAllIsNeutral(sort: Sorter, v: Value, items: seq<Value>)
    requires (v.List? || v.Tuple? || v.SetOf?) && items == v.items
    ensures FreezeAll(FreezeAll(items)) == FreezeAll(items)
    ensures CanonicalAll(sort, FreezeAll(items)) == CanonicalAll(sort, items)
    decreases v, 0
  {
    forall i | 0 <= i < |items|
      ensures Freeze(Freeze(items[i])) == Freeze(items[i])
              && Canonical(sort, Freeze(items[i])) == Canonical(sort, items[i])
    {
      FreezeIsNeutral(sort, items[i]);
    }
    var once, twice := CanonicalAll(sort, items), CanonicalAll(sort, FreezeAll(items));
    assert once.Some? <==> twice.Some?;
    if once.Some? {
      assert twice.value == once.value;
    }
  }

  // ------------------------------------------------------------ shape and order

  /** The canonical form keeps the keys of a dictionary and the order of a list,
      and replaces each child by its own canonical form. */
  lemma CanonicalKeepsTheShape(sort: Sorter, v: Value)
    requires Canonical(sort, v).Some?
    ensures v.Dict? ==>
              var c := Canonical(sort, v).value;
              c.Dict? && c.entries.Keys == v.entries.Keys
              && forall k :: k in v.entries ==> Canonical(sort, v.entries[k]) == Some(c.entries[k])
    ensures v.List? || v.Tuple? ==>
              var c := Canonical(sort, v).value;
              c.List? && |c.items| == |v.items|
              && forall i :: 0 <= i < |v.items| ==> Canonical(sort, v.items[i]) == Some(c.items[i])
    ensures v.Leaf? ==> Canonical(sort, v).value == v
  {
  }

  /** A sort that only looks at what it sorts. */
  ghost predicate Deterministic(sort: Sorter) {
    forall s, t :: multiset(s) == multiset(t) ==> sort(s) == sort(t)
  }

  ghost function Mapped(f: Value -> Value, xs: seq<Value>): seq<Value> {
    seq(|xs|, i requires 0 <= i < |xs| => f(xs[i]))
  }

  lemma MappedSplits(f: Value -> Value, front: seq<Value>, v: Value, back: seq<Value>)
    ensures multiset(Mapped(f, front + [v] + back)) == multiset(Mapped(f, front + back)) + multiset{f(v)}
  {
    var a, b := Mapped(f, front), Mapped(f, back);
    assert Mapped(f, front + [v] + back) == a + [f(v)] + b;
    assert Mapped(f, front + back) == a + b;
  }

  lemma CancelOne(m: multiset<Value>, n: multiset<Value>, x: Value)
    requires m + multiset{x} == n + multiset{x}
    ensures m == n
  {
    assert m == (m + multiset{x}) - multiset{x};
    assert n == (n + multiset{x}) - multiset{x};
  }

  /** The same elements in another order: the first of the one stands somewhere
      in the other, and without it they still are. */
  lemma WithoutTheFirst(xs: seq<Value>, ys: seq<Value>) returns (front: seq<Value>, back: seq<Value>)
    requires multiset(xs) == multiset(ys) && xs != []
    ensures ys == front + [xs[0]] + back && multiset(xs[1..]) == multiset(front + back)
  {
    var x := xs[0];
    assert x in multiset(xs);
    assert x in multiset(ys);
    var j :| 0 <= j < |ys| && ys[j] == x;
    front, back := ys[..j], ys[j + 1..];
    assert ys == front + [x] + back && xs == [x] + xs[1..];
    assert multiset(xs) == multiset(xs[1..]) + multiset{x};
    assert multiset(ys) == multiset(front + back) + multiset{x};
    CancelOne(multiset(xs[1..]), multiset(front + back), x);
  }

  /** Mapping a permutation permutes the images. */
  lemma {:induction false} MappedPermuted(f: Value -> Value, xs: seq<Value>, ys: seq<Value>)
    requires multiset(xs) == multiset(ys)
    ensures multiset(Mapped(f, xs)) == multiset(Mapped(f, ys))
    decreases |xs|
  {
    hide Mapped;
    if xs == [] {
      assert |multiset(ys)| == |ys|;
    } else {
      var front, back := WithoutTheFirst(xs, ys);
      MappedPermuted(f, xs[1..], front + back);
      MappedSplits(f, front, xs[0], back);
      MappedSplits(f, [], xs[0], xs[1..]);
      assert xs == [] + [xs[0]] + xs[1..] && [] + xs[1..] == xs[1..];
    }
  }

  lemma SameElements(xs: seq<Value>, ys: seq<Value>)
    requires multiset(xs) == multiset(ys)
    ensures forall v :: v in xs <==> v in ys
  {
    assert forall v :: v in xs <==> v in multiset(xs);
    assert forall v :: v in ys <==> v in multiset(ys);
  }

  lemma CanonicalAllIsMapped(sort: Sorter, f: Value -> Value, xs: seq<Value>)
    requires forall v :: Canonical(sort, v).Some? ==> f(v) == Canonical(sort, v).value
    ensures CanonicalAll(sort, xs).Some? <==> forall v :: v in xs ==> Canonical(sort, v).Some?
    ensures CanonicalAll(sort, xs).Some? ==> CanonicalAll(sort, xs).value == Mapped(f, xs)
  {
    hide Canonical;
    assert forall i :: 0 <= i < |xs| ==> xs[i] in xs;
  }

  /** The order in which a set happens to be iterated does not show in its
      canonical form, so not in a fingerprint either. */
  lemma SetOrderDoesNotShow(sort: Sorter, xs: seq<Value>, ys: seq<Value>)
    requires Deterministic(sort) && multiset(xs) == multiset(ys)
    ensures Canonical(sort, SetOf(xs)) == Canonical(sort, SetOf(ys))
  {
    var f := (v: Value) => if Canonical(sort, v).Some? then Canonical(sort, v).value else v;
    SameElements(xs, ys);
    MappedPermuted(f, xs, ys);
    CanonicalAllIsMapped(sort, f, xs);
    CanonicalAllIsMapped(sort, f, ys);
    if CanonicalAll(sort, xs).Some? {
      var a, b := CanonicalAll(sort, xs).value, CanonicalAll(sort, ys).value;
      assert multiset(a) == multiset(b);
      assert sort(a) == sort(b);
    }
  }
}
