/**
 The state commitment: a sparse Merkle tree over key digests.  The source folds integer paths
 bottom-up; the model proves that fold equal to the recursive tree and the tree injective.
 */
module StateTree {
  import opened Wrappers

  type Bytes = seq<bv8>

  datatype Hash = Empty | Leaf(key: Bytes, value: Bytes) | Node(left: Hash, right: Hash)
  datatype Code = Limit | Collision
  type Result<+T> = Try<T, Code>

  // ---------- the recursive tree ----------

  function At(nodes: map<nat, Hash>, empty: Hash, i: nat): Hash { if i in nodes then nodes[i] else empty }

  /** The node at height d and position i of the full tree over the leaves. */
  ghost function Sub(leaves: map<nat, Hash>, d: nat, i: nat): Hash
    decreases d
  {
    if d == 0 then At(leaves, Empty, i) else Node(Sub(leaves, d - 1, 2 * i), Sub(leaves, d - 1, 2 * i + 1))
  }

  function EmptyAt(d: nat): Hash
  {
    if d == 0 then Empty else Node(EmptyAt(d - 1), EmptyAt(d - 1))
  }

  ghost predicate Distinct(values: map<Bytes, Bytes>, index: Bytes -> nat)
  {
    forall k, l :: k in values && l in values && index(k) == index(l) ==> k == l
  }

  /** Each entry sits at the position of its key digest. */
  ghost function Placed(values: map<Bytes, Bytes>, index: Bytes -> nat): map<nat, Hash>
    requires Distinct(values, index)
  {
    map k | k in values :: index(k) := Leaf(k, values[k])
  }

  ghost function RootOf(values: map<Bytes, Bytes>, index: Bytes -> nat, depth: nat): Hash
    requires Distinct(values, index)
  {
    Sub(Placed(values, index), depth, 0)
  }

  // ---------- the bottom-up fold ----------

  /** The sparse nodes, together with the digest that stands for every absent one, are level d of the tree. */
  ghost predicate IsLevel(leaves: map<nat, Hash>, d: nat, nodes: map<nat, Hash>, empty: Hash)
  {
    empty == EmptyAt(d) && forall i: nat :: At(nodes, empty, i) == Sub(leaves, d, i)
  }

  ghost predicate AreParents(nodes: map<nat, Hash>, empty: Hash, parents: map<nat, Hash>, ids: set<nat>)
  {
    parents.Keys == ids && forall j :: j in parents ==>
      parents[j] == Node(At(nodes, empty, 2 * j), At(nodes, empty, 2 * j + 1))
  }

  /** The parents of the nodes present. */
  method Lift(nodes: map<nat, Hash>, empty: Hash) returns (parents: map<nat, Hash>)
    ensures AreParents(nodes, empty, parents, set i | i in nodes :: i / 2)
  {
    parents := map[];
    var todo := set i | i in nodes :: i / 2;
    ghost var ids := todo;
    while todo != {}
      invariant todo <= ids && AreParents(nodes, empty, parents, ids - todo)
      decreases |todo|
    {
      var j :| j in todo;
      parents := parents[j := Node(At(nodes, empty, 2 * j), At(nodes, empty, 2 * j + 1))];
      todo := todo - {j};
    }
  }

  lemma {:induction false} LiftLevel(leaves: map<nat, Hash>, d: nat, nodes: map<nat, Hash>, empty: Hash,
                                     parents: map<nat, Hash>)
    requires IsLevel(leaves, d, nodes, empty) && AreParents(nodes, empty, parents, set i | i in nodes :: i / 2)
    ensures IsLevel(leaves, d + 1, parents, Node(empty, empty))
  {
    forall j: nat ensures At(parents, Node(empty, empty), j) == Sub(leaves, d + 1, j) {
      assert At(nodes, empty, 2 * j) == Sub(leaves, d, 2 * j);
      assert At(nodes, empty, 2 * j + 1) == Sub(leaves, d, 2 * j + 1);
      assert 2 * j in nodes ==> (2 * j) / 2 in parents.Keys;
      assert 2 * j + 1 in nodes ==> (2 * j + 1) / 2 in parents.Keys;
    }
  }

  /** Folding level by level reaches the root of the recursive tree. */
  method Fold(leaves: map<nat, Hash>, depth: nat) returns (root: Hash)
    ensures root == Sub(leaves, depth, 0)
  {
    var nodes, empty, d := leaves, Empty, 0;
    while d < depth
      invariant 0 <= d <= depth && IsLevel(leaves, d, nodes, empty)
    {
      var parents := Lift(nodes, empty);
      LiftLevel(leaves, d, nodes, empty, parents);
      nodes, empty, d := parents, Node(empty, empty), d + 1;
    }
    root := At(nodes, empty, 0);
  }

  predicate Fits(key: Bytes, value: Bytes) { |key| <= 160 && |value| <= 4096 }

  ghost predicate AllFit(values: map<Bytes, Bytes>) { forall k :: k in values ==> Fits(k, values[k]) }

  /** Part of the entries has been placed. */
  ghost predicate Placing(values: map<Bytes, Bytes>, index: Bytes -> nat, todo: set<Bytes>, done: map<Bytes, Bytes>,
                          nodes: map<nat, Hash>)
  {
    && todo <= values.Keys && done.Keys == values.Keys - todo && (forall k :: k in done ==> done[k] == values[k])
    && AllFit(done) && Holds(done, index, nodes)
  }

  /** The nodes are exactly the leaves of the entries, each at its own position. */
  ghost predicate Holds(values: map<Bytes, Bytes>, index: Bytes -> nat, nodes: map<nat, Hash>)
  {
    && (forall k :: k in values ==> index(k) in nodes && nodes[index(k)] == Leaf(k, values[k]))
    && (forall i :: i in nodes ==> nodes[i].Leaf? && nodes[i].key in values && index(nodes[i].key) == i)
  }

  lemma {:induction false} HoldsIsPlaced(values: map<Bytes, Bytes>, index: Bytes -> nat, nodes: map<nat, Hash>)
    requires Holds(values, index, nodes)
    ensures Distinct(values, index) && nodes == Placed(values, index)
  {
    forall k, l | k in values && l in values && index(k) == index(l) ensures k == l { assert nodes[index(k)] == Leaf(k,
        values[k]); }
    forall i | i in nodes ensures i in Placed(values, index) { assert index(nodes[i].key) == i; }
  }

  lemma {:induction false} PlaceNext(values: map<Bytes, Bytes>, index: Bytes -> nat, todo: set<Bytes>,
                                     done: map<Bytes, Bytes>, nodes: map<nat, Hash>, k: Bytes)
    requires Placing(values, index, todo, done, nodes) && k in todo && index(k) !in nodes && Fits(k, values[k])
    ensures Placing(values, index, todo - {k}, done[k := values[k]], nodes[index(k) := Leaf(k, values[k])])
  {
  }

  lemma {:induction false} Collides(values: map<Bytes, Bytes>, index: Bytes -> nat, todo: set<Bytes>,
                                    done: map<Bytes, Bytes>, nodes: map<nat, Hash>, k: Bytes)
    requires Placing(values, index, todo, done, nodes) && k in todo && index(k) in nodes
    ensures !Distinct(values, index)
  {
    var l := nodes[index(k)].key;
    assert l in values && l != k && index(l) == index(k);
  }

  /** Places every entry, or stops at one that is too large or whose position is taken. */
  method PlaceAll(values: map<Bytes, Bytes>, index: Bytes -> nat) returns (r: Result<map<nat, Hash>>)
    ensures r.Ok? <==> Distinct(values, index) && AllFit(values)
    ensures r.Ok? ==> r.value == Placed(values, index)
    ensures r == Err(Collision) ==> !Distinct(values, index)
  {
    var nodes: map<nat, Hash> := map[];
    var todo := values.Keys;
    ghost var done: map<Bytes, Bytes> := map[];
    while todo != {}
      invariant Placing(values, index, todo, done, nodes)
      decreases |todo|
    {
      var k :| k in todo;
      if !Fits(k, values[k]) { return Err(Limit); }
      if index(k) in nodes {
        Collides(values, index, todo, done, nodes, k);
        return Err(Collision);
      }
      PlaceNext(values, index, todo, done, nodes, k);
      nodes := nodes[index(k) := Leaf(k, values[k])];
      done, todo := done[k := values[k]], todo - {k};
    }
    assert done == values;
    HoldsIsPlaced(values, index, nodes);
    r := Ok(nodes);
  }

  /** The whole commitment, with its size limits and its check for colliding key digests. */
  method StateRoot(values: map<Bytes, Bytes>, index: Bytes -> nat, depth: nat, maxKeys: nat) returns (r: Result<Hash>)
    ensures r.Ok? <==> |values| <= maxKeys && Distinct(values, index) && AllFit(values)
    ensures r.Ok? ==> r.value == RootOf(values, index, depth)
    ensures r == Err(Collision) ==> !Distinct(values, index)
  {
    if |values| > maxKeys { return Err(Limit); }
    var nodes := PlaceAll(values, index);
    if nodes.Err? { return Err(nodes.code); }
    var root := Fold(nodes.value, depth);
    r := Ok(root);
  }

  // ---------- the root determines the state ----------

  /** The position of leaf j's ancestor at height d. */
  function Ancestor(j: nat, d: nat): nat { if d == 0 then j else Ancestor(j, d - 1) / 2 }

  function Pow2(d: nat): nat { if d == 0 then 1 else 2 * Pow2(d - 1) }

  lemma {:induction false} AncestorBelow(j: nat, d: nat, e: nat)
    requires j < Pow2(d + e)
    ensures Ancestor(j, d) < Pow2(e)
  {
    if d > 0 { AncestorBelow(j, d - 1, e + 1); }
  }

  /** A leaf index of at most d bits has the root as its ancestor. */
  lemma {:induction false} AncestorIsRoot(j: nat, d: nat)
    requires j < Pow2(d)
    ensures Ancestor(j, d) == 0
  {
    AncestorBelow(j, d, 0);
  }

  lemma {:induction false} SubInjective(a: map<nat, Hash>, b: map<nat, Hash>, d: nat, j: nat)
    requires Sub(a, d, Ancestor(j, d)) == Sub(b, d, Ancestor(j, d))
    ensures At(a, Empty, j) == At(b, Empty, j)
  {
    if d > 0 {
      var i := Ancestor(j, d - 1);
      assert i == 2 * (i / 2) || i == 2 * (i / 2) + 1;
      SubInjective(a, b, d - 1, j);
    }
  }

  lemma {:induction false} EntryKept(v: map<Bytes, Bytes>, w: map<Bytes, Bytes>, index: Bytes -> nat, depth: nat,
                                     k: Bytes)
    requires Distinct(v, index) && Distinct(w, index) && index(k) < Pow2(depth) && k in v
    requires RootOf(v, index, depth) == RootOf(w, index, depth)
    ensures k in w && w[k] == v[k]
  {
    AncestorIsRoot(index(k), depth);
    SubInjective(Placed(v, index), Placed(w, index), depth, index(k));
    assert index(k) in Placed(v, index);
  }

  /** Different states have different roots. */
  lemma {:induction false} RootInjective(v: map<Bytes, Bytes>, w: map<Bytes, Bytes>, index: Bytes -> nat, depth: nat)
    requires Distinct(v, index) && Distinct(w, index) && forall k :: index(k) < Pow2(depth)
    requires RootOf(v, index, depth) == RootOf(w, index, depth)
    ensures v == w
  {
    forall k | k in v ensures k in w && w[k] == v[k] { EntryKept(v, w, index, depth, k); }
    forall k | k in w ensures k in v && v[k] == w[k] { EntryKept(w, v, index, depth, k); }
  }
}
