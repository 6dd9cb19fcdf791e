/**
 Inclusion paths of the duplicate-final Merkle tree over chunk digests.  A parent binds its
 domain and level, the root binds the leaf count, and digests are injective constructors.
 */
module MerklePath {
  import opened Wrappers

  datatype Hash = Chunk(n: nat) | Parent(domain: string, level: nat, left: Hash, right: Hash) | Root(domain: string,
      count: nat, top: Hash)
  datatype Step = Step(level: nat, side: nat, sibling: Hash)
  datatype Proof = Proof(count: nat, index: nat, path: seq<Step>)
  datatype Code = InvalidBounds | InvalidRange | ArithmeticOverflow | IdentifierMismatch
  type Result<+T> = Try<T, Code>

  const U32 := 0x1_0000_0000

  // ---------- the tree ----------

  function Above(domain: string, level: nat, xs: seq<Hash>, i: nat): Hash
    requires 2 * i < |xs|
  {
    Parent(domain, level, xs[2 * i], if 2 * i + 1 < |xs| then xs[2 * i + 1] else xs[2 * i])
  }

  /** The next level: pairs, the last one with itself when the count is odd. */
  function Up(domain: string, level: nat, xs: seq<Hash>): (r: seq<Hash>)
    ensures |r| == (|xs| + 1) / 2
  {
    seq((|xs| + 1) / 2, i requires 0 <= i < (|xs| + 1) / 2 => Above(domain, level, xs, i))
  }

  function Top(domain: string, level: nat, xs: seq<Hash>): Hash
    requires xs != []
    decreases |xs|
  {
    if |xs| == 1 then xs[0] else Top(domain, level + 1, Up(domain, level, xs))
  }

  function RootOf(domain: string, xs: seq<Hash>): Hash
    requires xs != []
  {
    Root(domain, |xs|, Top(domain, 0, xs))
  }

  method Parents(domain: string, level: nat, xs: seq<Hash>) returns (parents: seq<Hash>)
    ensures parents == Up(domain, level, xs)
  {
    parents := [];
    var i := 0;
    while 2 * i < |xs|
      invariant 0 <= i <= (|xs| + 1) / 2
      invariant parents == Up(domain, level, xs)[..i]
    {
      var left := xs[2 * i];
      var right := if 2 * i + 1 < |xs| then xs[2 * i + 1] else left;
      parents := parents + [Parent(domain, level, left, right)];
      i := i + 1;
    }
  }

  /** The level-by-level root loop. */
  method MerkleRoot(domain: string, leaves: seq<Hash>) returns (r: Result<Hash>)
    ensures r == if leaves == [] then Err(InvalidBounds)
                 else if |leaves| >= U32 then Err(ArithmeticOverflow)
                 else Ok(RootOf(domain, leaves))
  {
    if leaves == [] { return Err(InvalidBounds); }
    if |leaves| >= U32 { return Err(ArithmeticOverflow); }
    var xs, level := leaves, 0;
    while |xs| > 1
      invariant xs != [] && Top(domain, level, xs) == Top(domain, 0, leaves)
      decreases |xs|
    {
      xs := Parents(domain, level, xs);
      level := level + 1;
    }
    r := Ok(Root(domain, |leaves|, xs[0]));
  }

  // ---------- paths ----------

  function StepAt(level: nat, xs: seq<Hash>, p: nat): Step
    requires p < |xs|
  {
    if p % 2 == 0 then Step(level, 1, if p + 1 < |xs| then xs[p + 1] else xs[p]) else Step(level, 0, xs[p - 1])
  }

  /** The canonical path of position p. */
  function Path(domain: string, level: nat, xs: seq<Hash>, p: nat): seq<Step>
    requires p < |xs|
    decreases |xs|
  {
    if |xs| == 1 then [] else [StepAt(level, xs, p)] + Path(domain, level + 1, Up(domain, level, xs), p / 2)
  }

  lemma {:induction false} PathNext(domain: string, level: nat, xs: seq<Hash>, p: nat, path: seq<Step>)
    requires p < |xs| && |xs| > 1
    ensures path + Path(domain, level, xs, p) == path + [StepAt(level, xs, p)] + Path(domain, level + 1,
                                                                                      Up(domain, level, xs), p / 2)
  {
  }

  method BuildPath(domain: string, leaves: seq<Hash>, index: nat) returns (r: Result<seq<Step>>)
    ensures r == if index < |leaves| then Ok(Path(domain, 0, leaves, index)) else Err(InvalidRange)
  {
    if leaves == [] || index >= |leaves| { return Err(InvalidRange); }
    var xs: seq<Hash>, level: nat, p: nat := leaves, 0, index;
    var path := [];
    while |xs| > 1
      invariant 0 <= p < |xs| && path + Path(domain, level, xs, p) == Path(domain, 0, leaves, index)
      decreases |xs|
    {
      var step := if p % 2 == 0 then Step(level, 1, xs[if p + 1 < |xs| then p + 1 else p]) else Step(level, 0,
          xs[p - 1]);
      PathNext(domain, level, xs, p, path);
      path := path + [step];
      xs := Parents(domain, level, xs);
      p, level := p / 2, level + 1;
    }
    assert path + Path(domain, level, xs, p) == path;
    r := Ok(path);
  }

  /** What a step makes of the running digest, or nothing when the step is not canonical here. */
  predicate StepFits(level: nat, running: Hash, width: nat, p: nat, step: Step)
  {
    && step.level == level && step.side == (if p % 2 == 0 then 1 else 0)
    && (p % 2 == 0 && p + 1 == width ==> step.sibling == running)
  }

  function Joined(domain: string, running: Hash, step: Step): Hash
  {
    if step.side == 0 then Parent(domain, step.level, step.sibling, running) else Parent(domain, step.level, running,
                                                                                         step.sibling)
  }

  /** A path leads from a digest at position p of a level of this width to the top. */
  ghost predicate Leads(domain: string, level: nat, running: Hash, width: nat, p: nat, path: seq<Step>, top: Hash)
    requires width > 0
    decreases width
  {
    if width == 1 then path == [] && running == top
    else path != [] && StepFits(level, running, width, p, path[0])
         && Leads(domain, level + 1, Joined(domain, running, path[0]), (width + 1) / 2, p / 2, path[1..], top)
  }

  lemma {:induction false} StepForward(domain: string, level: nat, xs: seq<Hash>, p: nat)
    requires p < |xs|
    ensures StepFits(level, xs[p], |xs|, p, StepAt(level, xs, p))
    ensures Joined(domain, xs[p], StepAt(level, xs, p)) == Above(domain, level, xs, p / 2)
  {
    if p % 2 == 0 { assert 2 * (p / 2) == p; } else { assert 2 * (p / 2) + 1 == p; }
  }

  /** The path of a position leads from its own digest to the top. */
  lemma {:induction false} PathLeads(domain: string, level: nat, xs: seq<Hash>, p: nat)
    requires p < |xs|
    ensures Leads(domain, level, xs[p], |xs|, p, Path(domain, level, xs, p), Top(domain, level, xs))
    decreases |xs|
  {
    if |xs| > 1 {
      PathLeads(domain, level + 1, Up(domain, level, xs), p / 2);
      StepForward(domain, level, xs, p);
      assert Path(domain, level, xs, p)[1..] == Path(domain, level + 1, Up(domain, level, xs), p / 2);
    }
  }

  /** Joining with a step gives the digest above position p only for the digest at p and its own step. */
  lemma {:induction false} StepInverse(domain: string, level: nat, running: Hash, xs: seq<Hash>, p: nat, step: Step)
    requires p < |xs| && StepFits(level, running, |xs|, p, step)
    requires Joined(domain, running, step) == Above(domain, level, xs, p / 2)
    ensures running == xs[p] && step == StepAt(level, xs, p)
  {
    if p % 2 == 0 { assert 2 * (p / 2) == p; } else { assert 2 * (p / 2) + 1 == p; }
  }

  /** Only the digest at position p leads to the top, and only along its canonical path. */
  lemma {:induction false} LeadsOnlyThere(domain: string, level: nat, running: Hash, xs: seq<Hash>, p: nat,
                                          path: seq<Step>)
    requires p < |xs| && Leads(domain, level, running, |xs|, p, path, Top(domain, level, xs))
    ensures running == xs[p] && path == Path(domain, level, xs, p)
    decreases |xs|
  {
    if |xs| > 1 {
      var up := Up(domain, level, xs);
      LeadsOnlyThere(domain, level + 1, Joined(domain, running, path[0]), up, p / 2, path[1..]);
      StepInverse(domain, level, running, xs, p, path[0]);
      assert path == [path[0]] + path[1..];
    }
  }

  /** The verifier's loop accepts exactly the leads-to relation. */
  method FoldPath(domain: string, leaf: Hash, count: nat, index: nat, path: seq<Step>) returns (r: Result<Hash>)
    requires index < count
    ensures r.Ok? ==> Leads(domain, 0, leaf, count, index, path, r.value)
    ensures r.Err? ==> r.code == InvalidRange && forall top :: !Leads(domain, 0, leaf, count, index, path, top)
  {
    var running, width, p, level := leaf, count, index, 0;
    ghost var rest := path;
    while width > 1
      invariant width > 0 && level <= |path| && rest == path[level..]
      invariant forall top :: Leads(domain, 0, leaf, count, index, path, top) <==>
                  Leads(domain, level, running, width, p, rest, top)
      decreases width
    {
      if level >= |path| { return Err(InvalidRange); }
      var step := path[level];
      if !StepFits(level, running, width, p, step) { return Err(InvalidRange); }
      running := Joined(domain, running, step);
      width, p, level := (width + 1) / 2, p / 2, level + 1;
      rest := rest[1..];
    }
    if level != |path| { return Err(InvalidRange); }
    assert Leads(domain, level, running, width, p, rest, running);
    r := Ok(running);
  }

  method VerifyPath(domain: string, leaf: Hash, proof: Proof, root: Hash) returns (r: Result<bool>)
    ensures r.Ok? <==> Verifies(domain, leaf, proof, root)
    ensures r.Err? ==> r.code == InvalidRange || r.code == IdentifierMismatch
  {
    if proof.count == 0 || proof.index >= proof.count { return Err(InvalidRange); }
    var top := FoldPath(domain, leaf, proof.count, proof.index, proof.path);
    if top.Err? { return Err(top.code); }
    if Root(domain, proof.count, top.value) != root {
      LeadsOnce(domain, 0, leaf, proof.count, proof.index, proof.path, top.value);
      return Err(IdentifierMismatch);
    }
    r := Ok(true);
  }

  ghost predicate Verifies(domain: string, leaf: Hash, proof: Proof, root: Hash)
  {
    && proof.index < proof.count && root.Root? && root.domain == domain && root.count == proof.count
    && Leads(domain, 0, leaf, proof.count, proof.index, proof.path, root.top)
  }

  lemma {:induction false} LeadsOnce(domain: string, level: nat, running: Hash, width: nat, p: nat, path: seq<Step>,
                                     top: Hash)
    requires width > 0 && Leads(domain, level, running, width, p, path, top)
    ensures forall other :: Leads(domain, level, running, width, p, path, other) ==> other == top
    decreases width
  {
    if width > 1 {
      LeadsOnce(domain, level + 1, Joined(domain, running, path[0]), (width + 1) / 2, p / 2, path[1..], top);
    }
  }

  /**
   A proof verifies against the root of a leaf list exactly when it names the right count, an index
   inside it, the leaf at that index and the canonical path.
   */
  lemma {:induction false} ProofExact(domain: string, leaf: Hash, proof: Proof, xs: seq<Hash>)
    requires xs != []
    ensures Verifies(domain, leaf, proof, RootOf(domain, xs)) <==>
            && proof.count == |xs| && proof.index < |xs| && leaf == xs[proof.index]
            && proof.path == Path(domain, 0, xs, proof.index)
  {
    if proof.count == |xs| && proof.index < |xs| {
      PathLeads(domain, 0, xs, proof.index);
      if Verifies(domain, leaf, proof, RootOf(domain, xs)) { LeadsOnlyThere(domain, 0, leaf, xs, proof.index,
                                                                            proof.path); }
    }
  }
}
