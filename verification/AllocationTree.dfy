/** The loop that builds an allocation root together with every row's proof in one pass. */
module AllocationTree {
  import opened Allocation

  datatype Built = Refused | Built(root: Hash, proofs: seq<seq<Hash>>)

  /** The rows under node j of a level, when row x stands under node at[x]. */
  ghost predicate Members(group: set<nat>, at: seq<nat>, j: nat)
  {
    forall x: nat :: x in group <==> x < |at| && at[x] == j
  }

  ghost predicate Grouped(groups: seq<set<nat>>, at: seq<nat>)
  {
    && (forall x :: 0 <= x < |at| ==> at[x] < |groups|)
    && (forall j :: 0 <= j < |groups| ==> Members(groups[j], at, j))
  }

  function Halved(at: seq<nat>): (r: seq<nat>)
    ensures |r| == |at| && forall x :: 0 <= x < |at| ==> r[x] == at[x] / 2
  {
    seq(|at|, x requires 0 <= x < |at| => at[x] / 2)
  }

  lemma {:induction false} Merge(left: set<nat>, right: set<nat>, at: seq<nat>, j: nat)
    requires Members(left, at, 2 * j) && Members(right, at, 2 * j + 1)
    ensures Members(left + right, Halved(at), j)
  {
  }

  /** Adds one sibling to the proof of every row of a group. */
  method AppendAll(proofs: seq<seq<Hash>>, group: set<nat>, sibling: Hash) returns (r: seq<seq<Hash>>)
    requires forall x :: x in group ==> x < |proofs|
    ensures |r| == |proofs| && forall x :: 0 <= x < |r| ==> r[x] == proofs[x] + if x in group then [sibling] else []
  {
    r := proofs;
    var todo := group;
    while todo != {}
      invariant todo <= group && |r| == |proofs|
      invariant forall x :: 0 <= x < |r| ==> r[x] == proofs[x] + if x in group && x !in todo then [sibling] else []
      decreases todo
    {
      var x :| x in todo;
      r := r[x := r[x] + [sibling]];
      todo := todo - {x};
    }
  }

  function Padded(l: seq<Hash>): (r: seq<Hash>)
    requires l != []
    ensures |r| % 2 == 0 && |r| == 2 * ((|l| + 1) / 2)
  {
    if |l| % 2 == 1 then l + [l[|l| - 1]] else l
  }

  lemma {:induction false} PaddedAt(l: seq<Hash>, j: nat)
    requires 2 * j < |l|
    ensures 2 * j + 1 < |Padded(l)| && Padded(l)[2 * j] == l[2 * j] && Padded(l)[2 * j + 1] == At(l, 2 * j + 1)
  {
  }

  /** An odd level gets an empty group for its copied node. */
  function PaddedGroups(groups: seq<set<nat>>): seq<set<nat>>
  {
    if |groups| % 2 == 1 then groups + [{}] else groups
  }

  lemma {:induction false} PaddedMembers(groups: seq<set<nat>>, at: seq<nat>, j: nat)
    requires Grouped(groups, at) && j < |PaddedGroups(groups)|
    ensures Members(PaddedGroups(groups)[j], at, j)
  {
  }

  /** What the pairs below j have done: their members carry one more sibling, the others none. */
  ghost predicate Lifted(l: seq<Hash>, at: seq<nat>, before: seq<seq<Hash>>, after: seq<seq<Hash>>, j: nat)
  {
    |before| == |after| == |at| && forall x :: 0 <= x < |at| ==>
      at[x] < |l| && after[x] == before[x] + if at[x] < 2 * j then [Sibling(l, at[x])] else []
  }

  /** One pair: the left group gets the right node as sibling and the other way round. */
  method LiftPair(l: seq<Hash>, j: nat, left: set<nat>, right: set<nat>, proofs: seq<seq<Hash>>,
                  ghost at: seq<nat>, ghost before: seq<seq<Hash>>) returns (r: seq<seq<Hash>>)
    requires l != [] && 2 * j < |l| && Lifted(l, at, before, proofs, j)
    requires Members(left, at, 2 * j) && Members(right, at, 2 * j + 1)
    ensures Lifted(l, at, before, r, j + 1)
  {
    var a, b := l[2 * j], At(l, 2 * j + 1);
    r := AppendAll(proofs, left, b);
    r := AppendAll(r, right, a);
    forall x | 0 <= x < |at| ensures r[x] == before[x] + if at[x] < 2 * (j + 1) then [Sibling(l, at[x])] else [] {
      if at[x] == 2 * j { assert Sibling(l, at[x]) == b; }
      if at[x] == 2 * j + 1 { assert Sibling(l, at[x]) == a; }
    }
  }

  /** The first j parents and their groups. */
  ghost predicate Paired(le: Order, l: seq<Hash>, at: seq<nat>, up: seq<Hash>, merged: seq<set<nat>>, j: nat)
  {
    && |up| == |merged| == j && 2 * j <= |l| + 1
    && (forall i :: 0 <= i < j ==> up[i] == Pair(le, l[2 * i], At(l, 2 * i + 1)))
    && (forall i :: 0 <= i < j ==> Members(merged[i], Halved(at), i))
  }

  lemma {:induction false} PairedNext(le: Order, l: seq<Hash>, at: seq<nat>, up: seq<Hash>, merged: seq<set<nat>>,
                                      j: nat, left: set<nat>, right: set<nat>)
    requires 2 * j < |l| && Paired(le, l, at, up, merged, j) && Members(left, at, 2 * j)
    requires Members(right, at, 2 * j + 1)
    ensures Paired(le, l, at, up + [Pair(le, l[2 * j], At(l, 2 * j + 1))], merged + [left + right], j + 1)
  {
    Merge(left, right, at, j);
  }

  /** One level: parents, merged groups, and one more sibling for every row. */
  method LiftLevel(le: Order, l: seq<Hash>, groups: seq<set<nat>>, proofs: seq<seq<Hash>>, ghost at: seq<nat>)
    returns (up: seq<Hash>, merged: seq<set<nat>>, longer: seq<seq<Hash>>)
    requires |l| > 1 && |groups| == |l| && Grouped(groups, at) && |proofs| == |at|
    ensures up == Parents(le, l) && |merged| == |up|
    ensures |longer| == |at| && forall x :: 0 <= x < |at| ==>
              at[x] < |l| && longer[x] == proofs[x] + [Sibling(l, at[x])]
    ensures Grouped(merged, Halved(at))
  {
    var leaves, padded := Padded(l), PaddedGroups(groups);
    up, merged, longer := [], [], proofs;
    var j: nat := 0;
    while 2 * j < |leaves|
      invariant 0 <= 2 * j <= |leaves| && Paired(le, l, at, up, merged, j) && Lifted(l, at, proofs, longer, j)
    {
      PaddedAt(l, j);
      PaddedMembers(groups, at, 2 * j);
      PaddedMembers(groups, at, 2 * j + 1);
      PairedNext(le, l, at, up, merged, j, padded[2 * j], padded[2 * j + 1]);
      longer := LiftPair(l, j, padded[2 * j], padded[2 * j + 1], longer, at, proofs);
      up := up + [Pair(le, leaves[2 * j], leaves[2 * j + 1])];
      merged := merged + [padded[2 * j] + padded[2 * j + 1]];
      j := j + 1;
    }
  }

  /** The proofs collected so far, completed by the canonical proofs of the current level. */
  ghost predicate Complete(le: Order, leaves: seq<Hash>, l: seq<Hash>, at: seq<nat>, proofs: seq<seq<Hash>>)
  {
    |at| == |proofs| == |leaves| && forall x :: 0 <= x < |leaves| ==>
      at[x] < |l| && proofs[x] + Proof(le, l, at[x]) == Proof(le, leaves, x)
  }

  lemma {:induction false} CompleteNext(le: Order, leaves: seq<Hash>, l: seq<Hash>, at: seq<nat>,
                                        proofs: seq<seq<Hash>>, longer: seq<seq<Hash>>)
    requires |l| > 1 && Complete(le, leaves, l, at, proofs) && |longer| == |at|
    requires forall x :: 0 <= x < |at| ==> longer[x] == proofs[x] + [Sibling(l, at[x])]
    ensures Complete(le, leaves, Parents(le, l), Halved(at), longer)
  {
    forall x | 0 <= x < |leaves| ensures longer[x] + Proof(le, Parents(le, l), at[x] / 2) == Proof(le, leaves, x) {
      ProofNext(le, l, at[x], proofs[x]);
    }
  }

  lemma {:induction false} ProofNext(le: Order, l: seq<Hash>, i: nat, before: seq<Hash>)
    requires |l| > 1 && i < |l|
    ensures before + [Sibling(l, i)] + Proof(le, Parents(le, l), i / 2) == before + Proof(le, l, i)
  {
  }

  function Positions(n: nat): (r: seq<nat>)
    ensures |r| == n && forall i :: 0 <= i < n ==> r[i] == i
  {
    seq(n, (i: nat) => i)
  }

  function Singles(n: nat): (r: seq<set<nat>>)
    ensures |r| == n && forall i :: 0 <= i < n ==> r[i] == {i}
  {
    seq(n, (i: nat) => {i})
  }

  function Blanks(n: nat): (r: seq<seq<Hash>>)
    ensures |r| == n && forall i :: 0 <= i < n ==> r[i] == []
  {
    seq(n, (i: nat) => [])
  }

  lemma {:induction false} StartComplete(le: Order, leaves: seq<Hash>)
    ensures Complete(le, leaves, leaves, Positions(|leaves|), Blanks(|leaves|))
    ensures Grouped(Singles(|leaves|), Positions(|leaves|))
  {
    forall x | 0 <= x < |leaves| ensures Blanks(|leaves|)[x] + Proof(le, leaves, x) == Proof(le, leaves, x) { }
  }

  lemma {:induction false} EndComplete(le: Order, leaves: seq<Hash>, l: seq<Hash>, at: seq<nat>, proofs: seq<seq<Hash>>)
    requires |l| == 1 && Complete(le, leaves, l, at, proofs)
    ensures |proofs| == |leaves| && forall x :: 0 <= x < |leaves| ==> proofs[x] == Proof(le, leaves, x)
  {
    forall x | 0 <= x < |leaves| ensures proofs[x] == Proof(le, leaves, x) {
      assert proofs[x] + Proof(le, l, at[x]) == proofs[x];
    }
  }

  /** The whole loop: the root of the tree and, for every row, its canonical proof. */
  method BuildTree(le: Order, leaves: seq<Hash>) returns (r: Built)
    ensures r.Refused? <==> leaves == [] || |leaves| > 256
    ensures r.Built? ==> r.root == Root(le, leaves) && |r.proofs| == |leaves|
    ensures r.Built? ==> forall x :: 0 <= x < |leaves| ==> r.proofs[x] == Proof(le, leaves, x)
  {
    if leaves == [] || |leaves| > 256 { return Refused; }
    var l := leaves;
    var groups := Singles(|leaves|);
    var proofs := Blanks(|leaves|);
    ghost var at := Positions(|leaves|);
    StartComplete(le, leaves);
    while |l| > 1
      invariant l != [] && |groups| == |l| && Grouped(groups, at) && Root(le, l) == Root(le, leaves)
      invariant Complete(le, leaves, l, at, proofs)
      decreases |l|
    {
      var up, merged, longer := LiftLevel(le, l, groups, proofs, at);
      CompleteNext(le, leaves, l, at, proofs, longer);
      l, groups, proofs, at := up, merged, longer, Halved(at);
    }
    EndComplete(le, leaves, l, at, proofs);
    r := Built(l[0], proofs);
  }

  // ---------- rows in any order ----------

  function InsertRow(le: Order, r: Row, rows: seq<Row>): (out: seq<Row>)
    ensures |out| == |rows| + 1
  {
    if rows == [] || le(r.contribution, rows[0].contribution) then [r] + rows
    else [rows[0]] + InsertRow(le, r, rows[1..])
  }

  /** The stable sort by contribution. */
  function SortRows(le: Order, rows: seq<Row>): (out: seq<Row>)
    ensures |out| == |rows|
  {
    if rows == [] then [] else InsertRow(le, rows[0], SortRows(le, rows[1..]))
  }

  ghost predicate Transitive(le: Order) { forall a, b, c :: le(a, b) && le(b, c) ==> le(a, c) }

  /** The first row precedes every row, and so on. */
  ghost predicate Sorted(le: Order, rows: seq<Row>)
  {
    rows == [] || ((forall r :: r in rows ==> le(rows[0].contribution, r.contribution)) && Sorted(le, rows[1..]))
  }

  lemma {:induction false} HeadAndTail(rows: seq<Row>)
    requires rows != []
    ensures multiset(rows) == multiset{rows[0]} + multiset(rows[1..])
  {
    assert rows == [rows[0]] + rows[1..];
  }

  lemma {:induction false} InsertSorted(le: Order, r: Row, rows: seq<Row>)
    requires Total(le) && Transitive(le) && Sorted(le, rows)
    ensures Sorted(le, InsertRow(le, r, rows)) && multiset(InsertRow(le, r, rows)) == multiset(rows) + multiset{r}
  {
    var out := InsertRow(le, r, rows);
    if rows == [] || le(r.contribution, rows[0].contribution) {
      assert out[1..] == rows;
      HeadAndTail(out);
      assert le(r.contribution, r.contribution);
    } else {
      var rest := InsertRow(le, r, rows[1..]);
      InsertSorted(le, r, rows[1..]);
      assert out[1..] == rest;
      HeadAndTail(out);
      HeadAndTail(rows);
      forall x | x in out ensures le(rows[0].contribution, x.contribution) {
        assert x in multiset(out);
        if x != r { assert x in multiset(rows); }
      }
    }
  }

  lemma {:induction false} SortSorted(le: Order, rows: seq<Row>)
    requires Total(le) && Transitive(le)
    ensures Sorted(le, SortRows(le, rows)) && multiset(SortRows(le, rows)) == multiset(rows)
  {
    if rows != [] {
      SortSorted(le, rows[1..]);
      InsertSorted(le, rows[0], SortRows(le, rows[1..]));
      HeadAndTail(rows);
    }
  }

  /** No two rows are of one contribution. */
  ghost predicate OnePerContribution(rows: multiset<Row>)
  {
    forall a, b :: a in rows && b in rows && a.contribution == b.contribution ==> a == b
  }

  lemma {:induction false} OnePerTail(rows: seq<Row>)
    requires rows != [] && OnePerContribution(multiset(rows))
    ensures OnePerContribution(multiset(rows[1..]))
  {
    HeadAndTail(rows);
    forall x | x in multiset(rows[1..]) ensures x in multiset(rows) { }
  }

  /** Two sorted lists of the same rows begin with the same row. */
  lemma {:induction false} SameHead(le: Order, a: seq<Row>, b: seq<Row>)
    requires Total(le) && a != [] && b != [] && Sorted(le, a) && Sorted(le, b)
    requires multiset(a) == multiset(b) && OnePerContribution(multiset(a))
    ensures a[0] == b[0]
  {
    assert a[0] in multiset(a) && b[0] in multiset(b);
    assert a[0] in b && b[0] in a;
  }

  lemma {:induction false} SortedUnique(le: Order, a: seq<Row>, b: seq<Row>)
    requires Total(le) && Sorted(le, a) && Sorted(le, b)
    requires multiset(a) == multiset(b) && OnePerContribution(multiset(a))
    ensures a == b
  {
    assert |a| == |multiset(a)| == |multiset(b)| == |b|;
    if a != [] {
      SameHead(le, a, b);
      HeadAndTail(a);
      HeadAndTail(b);
      assert multiset(a[1..]) == multiset(a) - multiset{a[0]} == multiset(b[1..]);
      OnePerTail(a);
      SortedUnique(le, a[1..], b[1..]);
      assert a == [a[0]] + a[1..] && b == [b[0]] + b[1..];
    }
  }

  /** The root does not depend on the order the rows are given in. */
  lemma {:induction false} RootIgnoresOrder(le: Order, rows: seq<Row>, other: seq<Row>)
    requires Total(le) && Transitive(le) && multiset(rows) == multiset(other) && OnePerContribution(multiset(rows))
    ensures SortRows(le, rows) == SortRows(le, other)
  {
    SortSorted(le, rows);
    SortSorted(le, other);
    SortedUnique(le, SortRows(le, rows), SortRows(le, other));
  }

  /** Rows that are in order already stay as they are. */
  lemma {:induction false} SortLeaves(le: Order, rows: seq<Row>)
    requires forall i, j :: 0 <= i < j < |rows| ==> le(rows[i].contribution, rows[j].contribution)
    ensures SortRows(le, rows) == rows
  {
    if rows != [] {
      SortLeaves(le, rows[1..]);
      if |rows| > 1 { assert rows[1..][0] == rows[1]; }
      assert rows == [rows[0]] + rows[1..];
    }
  }

  /** `allocation_root_and_proofs`: the rows are sorted first, and every row gets a proof that verifies. */
  method AllocationRoot(le: Order, rows: seq<Row>) returns (r: Built)
    requires Total(le) && Transitive(le)
    ensures r.Refused? <==> rows == [] || |rows| > 256
    ensures r.Built? ==> r.root == Root(le, Leaves(SortRows(le, rows))) && |r.proofs| == |rows|
    ensures r.Built? ==> forall x :: 0 <= x < |rows| ==> r.proofs[x] == Proof(le, Leaves(SortRows(le, rows)), x)
    ensures r.Built? ==> forall x :: 0 <= x < |rows| ==> Check(le, Leaf(SortRows(le, rows)[x]), r.proofs[x], r.root)
  {
    var sorted := SortRows(le, rows);
    r := BuildTree(le, Leaves(sorted));
    if r.Built? {
      forall x | 0 <= x < |rows| ensures Check(le, Leaf(sorted[x]), r.proofs[x], r.root) {
        CheckComplete(le, sorted, x);
      }
    }
  }
}
