/**
 The commitment to an ordered list of byte strings.  Odd levels repeat their last node and no
 count is hashed, yet the root determines the list because every leaf binds its index.
 */
module SequenceRoot {
  type Bytes = seq<bv8>

  datatype Hash = Nothing | Leaf(index: nat, item: Bytes) | Node(left: Hash, right: Hash)

  /** The leaves of a list from index i on. */
  function Leaves(items: seq<Bytes>): (r: seq<Hash>)
    ensures |r| == |items| && forall i :: 0 <= i < |items| ==> r[i] == Leaf(i, items[i])
  {
    seq(|items|, i requires 0 <= i < |items| => Leaf(i, items[i]))
  }

  function Padded(xs: seq<Hash>): seq<Hash>
  {
    if |xs| % 2 == 1 then xs + [xs[|xs| - 1]] else xs
  }

  function Paired(xs: seq<Hash>): (r: seq<Hash>)
    requires |xs| % 2 == 0
    ensures |r| == |xs| / 2
  {
    if xs == [] then [] else [Node(xs[0], xs[1])] + Paired(xs[2..])
  }

  function Top(xs: seq<Hash>): Hash
    requires xs != []
    decreases |xs|
  {
    if |xs| == 1 then xs[0] else Top(Paired(Padded(xs)))
  }

  function RootOf(items: seq<Bytes>): Hash
  {
    if items == [] then Nothing else Top(Leaves(items))
  }

  /** The source's level-by-level loop. */
  method Compute(items: seq<Bytes>) returns (root: Hash)
    ensures root == RootOf(items)
  {
    var leaves := Leaves(items);
    if leaves == [] { return Nothing; }
    while |leaves| > 1
      invariant leaves != [] && Top(leaves) == RootOf(items)
      decreases |leaves|
    {
      leaves := PadAndPair(leaves);
    }
    root := leaves[0];
  }

  method PadAndPair(leaves: seq<Hash>) returns (next: seq<Hash>)
    requires |leaves| > 1
    ensures next == Paired(Padded(leaves))
  {
    var padded := leaves;
    if |padded| % 2 == 1 { padded := padded + [padded[|padded| - 1]]; }
    next := PairUp(padded);
  }

  method PairUp(leaves: seq<Hash>) returns (next: seq<Hash>)
    requires |leaves| % 2 == 0
    ensures next == Paired(leaves)
  {
    next := [];
    var i := 0;
    while i < |leaves|
      invariant 0 <= i <= |leaves| && i % 2 == 0 && next + Paired(leaves[i..]) == Paired(leaves)
    {
      assert leaves[i..][2..] == leaves[i + 2..];
      next := next + [Node(leaves[i], leaves[i + 1])];
      i := i + 2;
    }
  }

  // ---------- what a root says about its list ----------

  /** The leaves under a node, left to right. */
  function Under(h: Hash): seq<Hash>
  {
    match h
    case Nothing => []
    case Leaf(_, _) => [h]
    case Node(l, r) => Under(l) + Under(r)
  }

  function Fringe(xs: seq<Hash>): seq<Hash>
  {
    if xs == [] then [] else Under(xs[0]) + Fringe(xs[1..])
  }

  /** The list itself comes first; whatever follows repeats earlier leaves. */
  ghost predicate Shows(fringe: seq<Hash>, items: seq<Bytes>)
  {
    && |items| <= |fringe|
    && (forall p :: 0 <= p < |items| ==> fringe[p] == Leaf(p, items[p]))
    && (forall p :: |items| <= p < |fringe| ==> fringe[p].Leaf? && fringe[p].index < |items|)
  }

  lemma {:induction false} FringeOfLeaves(xs: seq<Hash>)
    requires forall x :: x in xs ==> x.Leaf?
    ensures Fringe(xs) == xs
  {
    if xs != [] {
      FringeOfLeaves(xs[1..]);
      assert xs[0] in xs && Under(xs[0]) == [xs[0]];
      assert xs == [xs[0]] + xs[1..];
    }
  }

  /** Pairing does not change the fringe. */
  lemma {:induction false} FringeOfPairs(xs: seq<Hash>)
    requires |xs| % 2 == 0
    ensures Fringe(Paired(xs)) == Fringe(xs)
  {
    if xs != [] {
      FringeOfPairs(xs[2..]);
      assert xs[1..][1..] == xs[2..];
      assert Paired(xs)[1..] == Paired(xs[2..]);
    }
  }

  lemma {:induction false} FringeSnoc(xs: seq<Hash>, x: Hash)
    ensures Fringe(xs + [x]) == Fringe(xs) + Under(x)
  {
    if xs == [] {
      assert Fringe([x]) == Under(x) + Fringe([x][1..]);
    } else {
      FringeSnoc(xs[1..], x);
      assert (xs + [x])[1..] == xs[1..] + [x];
    }
  }

  lemma {:induction false} FringeHolds(xs: seq<Hash>, i: nat, x: Hash)
    requires i < |xs| && x in Under(xs[i])
    ensures x in Fringe(xs)
  {
    if i > 0 { FringeHolds(xs[1..], i - 1, x); }
  }

  /** Repeating the last node adds only leaves that are already there. */
  lemma {:induction false} PaddedShows(xs: seq<Hash>, items: seq<Bytes>)
    requires xs != [] && items != [] && Shows(Fringe(xs), items)
    ensures Shows(Fringe(Padded(xs)), items)
  {
    if |xs| % 2 == 1 {
      var last := xs[|xs| - 1];
      var ys := Padded(xs);
      FringeSnoc(xs, last);
      forall p | |Fringe(xs)| <= p < |Fringe(ys)| ensures Fringe(ys)[p].Leaf? && Fringe(ys)[p].index < |items| {
        FringeHolds(xs, |xs| - 1, Under(last)[p - |Fringe(xs)|]);
        ShownIndex(Fringe(xs), items, Fringe(ys)[p]);
      }
    }
  }

  lemma {:induction false} ShownIndex(fringe: seq<Hash>, items: seq<Bytes>, x: Hash)
    requires Shows(fringe, items) && x in fringe
    ensures x.Leaf? && x.index < |items|
  {
    var p :| 0 <= p < |fringe| && fringe[p] == x;
  }

  lemma {:induction false} TopShows(xs: seq<Hash>, items: seq<Bytes>)
    requires xs != [] && items != [] && Shows(Fringe(xs), items)
    ensures Shows(Under(Top(xs)), items)
    decreases |xs|
  {
    if |xs| == 1 {
      assert xs == [xs[0]];
      assert Fringe(xs) == Under(xs[0]) + Fringe(xs[1..]) == Under(xs[0]);
    } else {
      PaddedShows(xs, items);
      FringeOfPairs(Padded(xs));
      TopShows(Paired(Padded(xs)), items);
    }
  }

  lemma {:induction false} RootShows(items: seq<Bytes>)
    requires items != []
    ensures Shows(Under(RootOf(items)), items)
  {
    FringeOfLeaves(Leaves(items));
    TopShows(Leaves(items), items);
  }

  lemma {:induction false} ShownAt(fringe: seq<Hash>, items: seq<Bytes>, p: nat)
    requires Shows(fringe, items) && p < |fringe|
    ensures fringe[p].Leaf? && (if p < |items| then fringe[p].index == p else fringe[p].index < |items|)
  {
  }

  /** One fringe shows one list. */
  lemma {:induction false} ShowsOnce(fringe: seq<Hash>, a: seq<Bytes>, b: seq<Bytes>)
    requires Shows(fringe, a) && Shows(fringe, b) && |a| <= |b|
    ensures a == b
  {
    if |a| < |fringe| {
      ShownAt(fringe, a, |a|);
      ShownAt(fringe, b, |a|);
    }
    forall p | 0 <= p < |a| ensures a[p] == b[p] { assert fringe[p] == Leaf(p, a[p]); }
  }

  /** Lists with the same root are the same list, whatever their lengths. */
  lemma {:induction false} RootInjective(a: seq<Bytes>, b: seq<Bytes>)
    requires RootOf(a) == RootOf(b)
    ensures a == b
  {
    if a != [] { RootShows(a); }
    if b != [] { RootShows(b); }
    if a != [] && b != [] {
      if |a| <= |b| { ShowsOnce(Under(RootOf(a)), a, b); } else { ShowsOnce(Under(RootOf(a)), b, a); }
    }
  }
}
