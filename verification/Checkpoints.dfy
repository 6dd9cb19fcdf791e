/** External checkpoints: values of one scope linked by generation and by the checksum of the predecessor. */
module Checkpoints {
  import opened Wrappers

  const U64 := 0x1_0000_0000_0000_0000

  /** Checksums are injective; `Zero` is the all-zero predecessor of a first value. */
  datatype Checksum = Zero | Of(checkpoint: Checkpoint)
  datatype Checkpoint = Checkpoint(scope: nat, generation: nat, predecessor: Checksum, body: nat)

  predicate Succeeds(target: Checkpoint, source: Checkpoint)
  {
    && target.scope == source.scope
    && source.generation + 1 < U64 && target.generation == source.generation + 1
    && target.predecessor == Of(source)
  }

  /** A list of checkpoints, each the successor of the one before. */
  ghost predicate Linked(chain: seq<Checkpoint>)
  {
    forall i :: 0 < i < |chain| ==> Succeeds(chain[i], chain[i - 1])
  }

  /** One step back along two chains with one tip. */
  lemma {:induction false} SharedPredecessor(a: seq<Checkpoint>, b: seq<Checkpoint>)
    requires Linked(a) && Linked(b) && |a| > 1 && |b| > 1 && a[|a| - 1] == b[|b| - 1]
    ensures Linked(a[..|a| - 1]) && Linked(b[..|b| - 1]) && a[|a| - 2] == b[|b| - 2]
  {
    assert Succeeds(a[|a| - 1], a[|a| - 2]) && Succeeds(b[|b| - 1], b[|b| - 2]);
  }

  lemma {:induction false} TipFixesSuffix(a: seq<Checkpoint>, b: seq<Checkpoint>)
    requires Linked(a) && Linked(b) && 0 < |a| <= |b| && a[|a| - 1] == b[|b| - 1]
    ensures a == b[|b| - |a|..]
  {
    if |a| > 1 {
      SharedPredecessor(a, b);
      TipFixesSuffix(a[..|a| - 1], b[..|b| - 1]);
      assert a == a[..|a| - 1] + [a[|a| - 1]];
      assert b[|b| - |a|..] == b[..|b| - 1][|b| - |a|..] + [b[|b| - 1]];
    }
  }

  lemma {:induction false} GenerationAt(a: seq<Checkpoint>, i: nat)
    requires Linked(a) && i < |a|
    ensures a[i].generation == a[0].generation + i
  {
    if i > 0 {
      GenerationAt(a, i - 1);
      assert Succeeds(a[i], a[i - 1]);
    }
  }

  /**
   A checkpoint commits to its whole history: two chains from a first value that end in one
   checkpoint are the same chain.
   */
  lemma {:induction false} TipFixesChain(a: seq<Checkpoint>, b: seq<Checkpoint>)
    requires Linked(a) && Linked(b) && a != [] && b != [] && a[|a| - 1] == b[|b| - 1]
    ensures a[0].generation == b[0].generation ==> a == b
    ensures |a| <= |b| ==> a == b[|b| - |a|..]
  {
    GenerationAt(a, |a| - 1);
    GenerationAt(b, |b| - 1);
    if |a| <= |b| { TipFixesSuffix(a, b); }
  }

  // ---------- failing steps ----------

  /** The operation failed because the disk did. */
  predicate Interrupted<T(==), E(==)>(r: Try<T, E>, io: E, fuse: nat) { r == Err(io) && fuse == 0 }
}
