/**
 Digests as an injective, tag-separated term algebra, and the allocation tree of a release:
 sorted-pair inner nodes, odd levels padded with a copy of their last node, and inclusion
 proofs of one fixed length.
 */
module Allocation {

  datatype Hash =
    | Atom(n: nat)
    | TaskId(sender: Hash, nonce: nat, provider: Hash, budget: nat, deadline: nat)
    | QuotaId(sender: Hash, nonce: nat, consumer: Hash, provider: Hash, units: nat, deadline: nat)
    | ContributionId(sender: Hash, family: Hash, parent: Hash, artifact: Hash, components: Hash, round: nat)
    | ReleaseId(parent: Hash, bundle: Hash, budget: nat, root: Hash, total: nat)
    | RewardId(parent: Hash, height: nat, miner: Hash)
    | LeafHash(contribution: Hash, payee: Hash, score: nat)
    | NodeHash(lo: Hash, hi: Hash)

  const ZERO: Hash := Atom(0)

  /** The byte order of digests, used only to order the two children of a node. */
  type Order = (Hash, Hash) -> bool

  ghost predicate Total(le: Order)
  {
    && (forall a, b :: le(a, b) || le(b, a))
    && (forall a, b :: le(a, b) && le(b, a) ==> a == b)
  }

  datatype Row = Row(contribution: Hash, payee: Hash, score: nat)

  function Leaf(r: Row): Hash { LeafHash(r.contribution, r.payee, r.score) }

  function Leaves(rows: seq<Row>): (l: seq<Hash>)
    ensures |l| == |rows|
    ensures forall i :: 0 <= i < |rows| ==> l[i] == Leaf(rows[i])
  {
    seq(|rows|, i requires 0 <= i < |rows| => Leaf(rows[i]))
  }

  function Pair(le: Order, a: Hash, b: Hash): Hash
  {
    if le(a, b) then NodeHash(a, b) else NodeHash(b, a)
  }

  /** The node at i, or the copy of the last one that pads an odd level. */
  function At(l: seq<Hash>, i: nat): Hash
    requires l != [] && i <= |l|
  {
    if i < |l| then l[i] else l[|l| - 1]
  }

  /** One level up. */
  function Parents(le: Order, l: seq<Hash>): (r: seq<Hash>)
    requires l != []
    ensures |r| == (|l| + 1) / 2
    ensures forall i :: 0 <= i < |r| ==> r[i] == Pair(le, l[2 * i], At(l, 2 * i + 1))
  {
    seq((|l| + 1) / 2, i requires 0 <= i < (|l| + 1) / 2 => Pair(le, l[2 * i], At(l, 2 * i + 1)))
  }

  function Root(le: Order, l: seq<Hash>): Hash
    requires l != []
    decreases |l|
  {
    if |l| == 1 then l[0] else Root(le, Parents(le, l))
  }

  /** Number of levels above n leaves; the source computes it as the bit length of n - 1. */
  function Depth(n: nat): nat
    requires n > 0
  {
    if n == 1 then 0 else 1 + Depth((n + 1) / 2)
  }

  function BitLength(n: nat): nat
  {
    if n == 0 then 0 else 1 + BitLength(n / 2)
  }

  lemma {:induction false} DepthIsBitLength(n: nat)
    requires n > 0
    ensures Depth(n) == BitLength(n - 1)
  {
    if n > 1 {
      DepthIsBitLength((n + 1) / 2);
      assert (n + 1) / 2 - 1 == (n - 1) / 2;
    }
  }

  function Sibling(l: seq<Hash>, i: nat): Hash
    requires i < |l|
  {
    if i % 2 == 0 then At(l, i + 1) else l[i - 1]
  }

  /** The siblings from leaf i up to the root. */
  function Proof(le: Order, l: seq<Hash>, i: nat): seq<Hash>
    requires i < |l|
    decreases |l|
  {
    if |l| == 1 then [] else [Sibling(l, i)] + Proof(le, Parents(le, l), i / 2)
  }

  function Fold(le: Order, leaf: Hash, proof: seq<Hash>): Hash
    decreases |proof|
  {
    if proof == [] then leaf else Fold(le, Pair(le, leaf, proof[0]), proof[1..])
  }

  predicate Check(le: Order, leaf: Hash, proof: seq<Hash>, root: Hash)
  {
    |proof| <= 8 && Fold(le, leaf, proof) == root
  }

  /** The loop of `allocation_check`. */
  method CheckLoop(le: Order, leaf: Hash, proof: seq<Hash>, root: Hash) returns (ok: bool)
    ensures ok == Check(le, leaf, proof, root)
  {
    if |proof| > 8 { return false; }
    var running, i := leaf, 0;
    while i < |proof|
      invariant 0 <= i <= |proof|
      invariant Fold(le, running, proof[i..]) == Fold(le, leaf, proof)
    {
      assert proof[i..][1..] == proof[i + 1..];
      running := Pair(le, running, proof[i]);
      i := i + 1;
    }
    ok := running == root;
  }

  /** Every generated proof has the fixed length and folds to the root. */
  lemma {:induction false} ProofVerifies(le: Order, l: seq<Hash>, i: nat)
    requires Total(le) && i < |l|
    ensures |Proof(le, l, i)| == Depth(|l|) && Fold(le, l[i], Proof(le, l, i)) == Root(le, l)
    decreases |l|
  {
    if |l| > 1 {
      var up := Parents(le, l);
      ProofVerifies(le, up, i / 2);
      SiblingParent(le, l, i);
      assert Proof(le, l, i)[1..] == Proof(le, up, i / 2);
    }
  }

  lemma {:induction false} PairSymmetric(le: Order, a: Hash, b: Hash)
    requires Total(le)
    ensures Pair(le, a, b) == Pair(le, b, a)
  {
    assert le(a, b) || le(b, a);
  }

  lemma {:induction false} SiblingParent(le: Order, l: seq<Hash>, i: nat)
    requires Total(le) && i < |l| && |l| > 1
    ensures Pair(le, l[i], Sibling(l, i)) == Parents(le, l)[i / 2]
  {
    PairSymmetric(le, l[i], Sibling(l, i));
    if i % 2 == 1 { assert l[2 * (i / 2)] == l[i - 1] && At(l, 2 * (i / 2) + 1) == l[i]; }
  }

  /** A parent's two children are nodes of the level below. */
  lemma {:induction false} PairInjective(le: Order, a: Hash, b: Hash, c: Hash, d: Hash)
    ensures Pair(le, a, b) == Pair(le, c, d) ==> a == c || a == d
  {
  }

  /** Folding over a proof of the fixed length reaches the root only from a leaf of the tree. */
  lemma {:induction false} FoldSound(le: Order, x: Hash, proof: seq<Hash>, l: seq<Hash>)
    requires l != [] && |proof| == Depth(|l|) && Fold(le, x, proof) == Root(le, l)
    ensures x in l
    decreases |l|
  {
    if |l| > 1 {
      var up := Parents(le, l);
      FoldSound(le, Pair(le, x, proof[0]), proof[1..], up);
      var i :| 0 <= i < |up| && up[i] == Pair(le, x, proof[0]);
      PairInjective(le, x, proof[0], l[2 * i], At(l, 2 * i + 1));
    }
  }

  /** An accepted claim names a committed row: contribution, payee and score. */
  lemma {:induction false} CheckSound(le: Order, row: Row, proof: seq<Hash>, rows: seq<Row>)
    requires rows != [] && |proof| == BitLength(|rows| - 1)
    requires Check(le, Leaf(row), proof, Root(le, Leaves(rows)))
    ensures row in rows
  {
    DepthIsBitLength(|rows|);
    FoldSound(le, Leaf(row), proof, Leaves(rows));
    LeafIsRow(row, rows);
  }

  lemma {:induction false} LeafIsRow(row: Row, rows: seq<Row>)
    requires Leaf(row) in Leaves(rows)
    ensures row in rows
  {
    var i :| 0 <= i < |rows| && Leaves(rows)[i] == Leaf(row);
    assert rows[i] == row;
  }

  /** Conversely every committed row has an accepted proof, for up to 256 rows. */
  lemma {:induction false} CheckComplete(le: Order, rows: seq<Row>, i: nat)
    requires Total(le) && i < |rows| <= 256
    ensures |Proof(le, Leaves(rows), i)| == BitLength(|rows| - 1)
    ensures Check(le, Leaf(rows[i]), Proof(le, Leaves(rows), i), Root(le, Leaves(rows)))
  {
    ProofVerifies(le, Leaves(rows), i);
    DepthIsBitLength(|rows|);
    DepthBound(|rows|, 8);
  }

  ghost function Pow2(k: nat): nat { if k == 0 then 1 else 2 * Pow2(k - 1) }

  lemma {:induction false} DepthBound(n: nat, k: nat)
    requires 0 < n <= Pow2(k)
    ensures Depth(n) <= k
  {
    if n > 1 { DepthBound((n + 1) / 2, k - 1); }
  }
}
