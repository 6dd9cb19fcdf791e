/**
 The persisted block tree: execution of a branch from genesis, the per-block state deltas,
 and walks over the tree that detach and attach blocks.
 */
module BlockTree {
  import opened Wrappers
  import opened Consensus

  type Id = nat
  type Root = nat
  type Body = string
  /** Canonical JSON values by key, as the kv table holds them. */
  type State = map<string, string>

  datatype Block = Block(parent: Option<Id>, height: nat, chainwork: nat, header: Header, body: Body, root: Root)
  /** One delta row: the value before and after, None where the key is absent. */
  datatype Change = Change(before: Option<string>, after: Option<string>)
  type Delta = map<string, Change>
  datatype Step = Detach(block: Id) | Attach(block: Id)

  /** What the ledger takes as given: parameters, genesis, transaction execution and the state commitment. */
  datatype Rules = Rules(params: Params, genesis: Id, genesisState: State,
                         exec: (State, Body, nat, Id) -> Option<State>, root: State -> Root)

  type Blocks = map<Id, Block>

  // ---------- the tree ----------

  ghost predicate Linked(r: Rules, blocks: Blocks, id: Id)
    requires id in blocks
  {
    if id == r.genesis then
      blocks[id].parent == None && blocks[id].height == 0
    else
      blocks[id].parent.Some? && blocks[id].parent.value in blocks
      && blocks[id].height == blocks[blocks[id].parent.value].height + 1
  }

  ghost predicate Tree(r: Rules, blocks: Blocks)
  {
    r.genesis in blocks && forall id {:trigger Linked(r, blocks, id)} :: id in blocks ==> Linked(r, blocks, id)
  }

  function Parent(r: Rules, blocks: Blocks, id: Id): Id
    requires id in blocks
  {
    if blocks[id].parent.Some? then blocks[id].parent.value else id
  }

  lemma {:induction false} ParentFacts(r: Rules, blocks: Blocks, id: Id)
    requires Tree(r, blocks) && id in blocks
    ensures Parent(r, blocks, id) in blocks
    ensures id == r.genesis <==> blocks[id].height == 0
    ensures id == r.genesis <==> blocks[id].parent == None
    ensures id != r.genesis ==> blocks[id].parent == Some(Parent(r, blocks, id))
                                && blocks[id].height == blocks[Parent(r, blocks, id)].height + 1
  {
    assert Linked(r, blocks, id);
  }

  /** The state after executing every block from genesis to id: the reference for everything stored. */
  ghost function Replay(r: Rules, blocks: Blocks, id: Id): State
    requires Tree(r, blocks) && id in blocks
    decreases blocks[id].height
  {
    ParentFacts(r, blocks, id);
    if id == r.genesis then r.genesisState
    else
      var p := Parent(r, blocks, id);
      match r.exec(Replay(r, blocks, p), blocks[id].body, blocks[id].height, p)
      case Some(s) => s
      case None => r.genesisState
  }

  /** The headers from genesis to id. */
  ghost function Chain(r: Rules, blocks: Blocks, id: Id): seq<Header>
    requires Tree(r, blocks) && id in blocks
    decreases blocks[id].height
  {
    ParentFacts(r, blocks, id);
    if id == r.genesis then [blocks[id].header] else Chain(r, blocks, Parent(r, blocks, id)) + [blocks[id].header]
  }

  lemma {:induction false} ChainLength(r: Rules, blocks: Blocks, id: Id)
    requires Tree(r, blocks) && id in blocks
    ensures |Chain(r, blocks, id)| == blocks[id].height + 1
    decreases blocks[id].height
  {
    ParentFacts(r, blocks, id);
    if id != r.genesis { ChainLength(r, blocks, Parent(r, blocks, id)); }
  }

  // ---------- deltas ----------

  function Get(s: State, k: string): Option<string>
  {
    if k in s then Some(s[k]) else None
  }

  function Set(s: State, k: string, v: Option<string>): State
  {
    match v
    case Some(x) => s[k := x]
    case None => s - {k}
  }

  lemma {:induction false} SameState(a: State, b: State)
    requires forall k :: Get(a, k) == Get(b, k)
    ensures a == b
  {
    forall k ensures k in a <==> k in b { assert Get(a, k) == Get(b, k); }
    forall k | k in a ensures a[k] == b[k] { assert Get(a, k) == Get(b, k); }
  }

  /** Exactly the keys whose value differs. */
  function Diff(a: State, b: State): Delta
  {
    map k | k in a.Keys + b.Keys && Get(a, k) != Get(b, k) :: Change(Get(a, k), Get(b, k))
  }

  function Expected(d: Delta, k: string, detach: bool): Option<string>
    requires k in d
  {
    if detach then d[k].after else d[k].before
  }

  function New(d: Delta, k: string, detach: bool): Option<string>
    requires k in d
  {
    if detach then d[k].before else d[k].after
  }

  /** The state holds every value the delta expects to replace. */
  ghost predicate Applies(s: State, d: Delta, detach: bool)
  {
    forall k :: k in d ==> Get(s, k) == Expected(d, k, detach)
  }

  ghost predicate Patched(s: State, t: State, d: Delta, detach: bool)
  {
    forall k :: Get(t, k) == if k in d then New(d, k, detach) else Get(s, k)
  }

  /** A delta turns the earlier state into the later one, and reversed the later into the earlier. */
  lemma {:induction false} DiffRoundTrip(a: State, b: State, t: State)
    ensures Applies(a, Diff(a, b), false) && Applies(b, Diff(a, b), true)
    ensures Patched(a, t, Diff(a, b), false) ==> t == b
    ensures Patched(b, t, Diff(a, b), true) ==> t == a
  {
    if Patched(a, t, Diff(a, b), false) { SameState(t, b); }
    if Patched(b, t, Diff(a, b), true) { SameState(t, a); }
  }

  // ---------- stored rows agree with execution ----------

  /** The block executes on its parent's state, and its delta and work are those of that execution. */
  ghost predicate EdgeOk(r: Rules, blocks: Blocks, deltas: map<Id, Delta>, id: Id)
    requires Tree(r, blocks) && id in blocks && id != r.genesis
  {
    ParentFacts(r, blocks, id);
    var p := Parent(r, blocks, id);
    && id in deltas
    && r.exec(Replay(r, blocks, p), blocks[id].body, blocks[id].height, p) == Some(Replay(r, blocks, id))
    && deltas[id] == Diff(Replay(r, blocks, p), Replay(r, blocks, id))
    && 1 <= blocks[id].header.target < POW256
    && blocks[id].chainwork == blocks[p].chainwork + Work(blocks[id].header.target)
  }

  ghost predicate BlockOk(r: Rules, blocks: Blocks, deltas: map<Id, Delta>, id: Id)
    requires Tree(r, blocks) && id in blocks && r.params.Valid()
  {
    && blocks[id].root == r.root(Replay(r, blocks, id))
    && Admitted(r.params, Chain(r, blocks, id))
    && (id == r.genesis ==> blocks[id].chainwork == 0)
    && (id != r.genesis ==> EdgeOk(r, blocks, deltas, id))
  }

  ghost predicate StoreOk(r: Rules, blocks: Blocks, deltas: map<Id, Delta>)
  {
    && r.params.Valid()
    && Tree(r, blocks)
    && forall id {:trigger BlockOk(r, blocks, deltas, id)} :: id in blocks ==> BlockOk(r, blocks, deltas, id)
  }

  ghost predicate SnapshotOk(r: Rules, blocks: Blocks, snapshots: map<Id, State>, id: Id)
    requires Tree(r, blocks) && id in snapshots
  {
    id in blocks && snapshots[id] == Replay(r, blocks, id)
  }

  ghost predicate SnapshotsOk(r: Rules, blocks: Blocks, snapshots: map<Id, State>)
    requires Tree(r, blocks)
  {
    && r.genesis in snapshots
    && forall id {:trigger SnapshotOk(r, blocks, snapshots, id)} :: id in snapshots ==>
       SnapshotOk(r, blocks, snapshots, id)
  }

  // ---------- walks ----------

  /** The steps lead from one block to another, one tree edge at a time. */
  ghost predicate Leads(r: Rules, blocks: Blocks, from: Id, steps: seq<Step>, to: Id)
    decreases |steps|
  {
    if steps == [] then from == to
    else
      match steps[0]
      case Detach(b) =>
        && b == from && b in blocks && b != r.genesis
        && Leads(r, blocks, Parent(r, blocks, b), steps[1..], to)
      case Attach(b) =>
        && b in blocks && b != r.genesis && Parent(r, blocks, b) == from
        && Leads(r, blocks, b, steps[1..], to)
  }

  lemma {:induction false} LeadsConcat(r: Rules, blocks: Blocks, a: Id, s: seq<Step>, b: Id, t: seq<Step>, c: Id)
    requires Leads(r, blocks, a, s, b) && Leads(r, blocks, b, t, c)
    ensures Leads(r, blocks, a, s + t, c)
    decreases |s|
  {
    if s == [] {
      assert s + t == t;
    } else {
      assert (s + t)[1..] == s[1..] + t;
      match s[0]
      case Detach(x) => LeadsConcat(r, blocks, Parent(r, blocks, x), s[1..], b, t, c);
      case Attach(x) => LeadsConcat(r, blocks, x, s[1..], b, t, c);
    }
  }

  /** Nothing is detached after an attachment, and no block is both detached and attached. */
  ghost predicate Direct(steps: seq<Step>)
  {
    && (forall i, j :: 0 <= i < j < |steps| && steps[i].Attach? ==> steps[j].Attach?)
    && (forall i, j :: 0 <= i < |steps| && 0 <= j < |steps| && steps[i].Detach? && steps[j].Attach? ==>
          steps[i].block != steps[j].block)
  }

  /** What has been detached lies at or above the right end, and what is to be attached above the left one. */
  ghost predicate Apart(blocks: Blocks, left: Id, right: Id, detach: seq<Step>, attach: seq<Step>)
    requires left in blocks && right in blocks
  {
    && (forall s :: s in detach ==> s.Detach? && s.block in blocks && s.block != right
                                    && blocks[s.block].height >= blocks[right].height)
    && (forall s :: s in attach ==> s.Attach? && s.block in blocks && blocks[s.block].height > blocks[left].height)
    && (forall s, t :: s in detach && t in attach ==> s.block != t.block)
  }

  lemma {:induction false} ApartDirect(blocks: Blocks, left: Id, right: Id, detach: seq<Step>, attach: seq<Step>)
    requires left in blocks && right in blocks && Apart(blocks, left, right, detach, attach)
    ensures Direct(detach + attach)
  {
    var steps := detach + attach;
    forall i | 0 <= i < |steps| ensures steps[i].Detach? <==> i < |detach| {
      if i < |detach| { assert steps[i] in detach; } else { assert steps[i] in attach; }
    }
    forall i, j | 0 <= i < |steps| && 0 <= j < |steps| && steps[i].Detach? && steps[j].Attach?
      ensures steps[i].block != steps[j].block
    {
      assert steps[i] in detach && steps[j] in attach;
    }
  }

  /** The common-ancestor walk of a reorganisation: detach the old branch, then attach the new one. */
  method PathBetween(r: Rules, blocks: Blocks, start: Id, target: Id) returns (steps: seq<Step>)
    requires Tree(r, blocks) && start in blocks && target in blocks
    ensures Leads(r, blocks, start, steps, target) && Direct(steps)
  {
    var left, right := start, target;
    var detach: seq<Step>, attach: seq<Step> := [], [];
    while left != right
      invariant left in blocks && right in blocks
      invariant Leads(r, blocks, start, detach, left)
      invariant Leads(r, blocks, right, attach, target)
      invariant Apart(blocks, left, right, detach, attach)
      decreases blocks[left].height + blocks[right].height
    {
      ParentFacts(r, blocks, left);
      ParentFacts(r, blocks, right);
      if blocks[left].height >= blocks[right].height {
        var up := Parent(r, blocks, left);
        assert Leads(r, blocks, left, [Detach(left)], up);
        LeadsConcat(r, blocks, start, detach, left, [Detach(left)], up);
        detach := detach + [Detach(left)];
        left := up;
      } else {
        assert ([Attach(right)] + attach)[1..] == attach;
        attach := [Attach(right)] + attach;
        right := Parent(r, blocks, right);
      }
    }
    steps := detach + attach;
    ApartDirect(blocks, left, right, detach, attach);
    LeadsConcat(r, blocks, start, detach, left, attach, target);
  }

  // ---------- adding a leaf ----------

  ghost predicate Grows(r: Rules, blocks: Blocks, id: Id, b: Block, next: Blocks)
  {
    Tree(r, blocks) && id !in blocks && Tree(r, next) && next == blocks[id := b]
  }

  lemma {:induction false} GrowTree(r: Rules, blocks: Blocks, id: Id, b: Block)
    requires Tree(r, blocks) && id !in blocks
    requires b.parent.Some? && b.parent.value in blocks && b.height == blocks[b.parent.value].height + 1
    ensures Tree(r, blocks[id := b])
  {
    var next := blocks[id := b];
    forall x | x in next ensures Linked(r, next, x)
    {
      if x != id { assert Linked(r, blocks, x); }
    }
  }

  lemma {:induction false} GrowKeeps(r: Rules, blocks: Blocks, id: Id, b: Block, next: Blocks, x: Id)
    requires Grows(r, blocks, id, b, next) && x in blocks
    ensures Replay(r, next, x) == Replay(r, blocks, x) && Chain(r, next, x) == Chain(r, blocks, x)
    decreases blocks[x].height
  {
    ParentFacts(r, blocks, x);
    ParentFacts(r, next, x);
    if x != r.genesis { GrowKeeps(r, blocks, id, b, next, Parent(r, blocks, x)); }
  }

  lemma {:induction false} GrowLeads(r: Rules, blocks: Blocks, id: Id, b: Block, next: Blocks, from: Id,
                                     steps: seq<Step>, to: Id)
    requires Grows(r, blocks, id, b, next) && Leads(r, blocks, from, steps, to)
    ensures Leads(r, next, from, steps, to)
    decreases |steps|
  {
    if steps != [] {
      match steps[0]
      case Detach(x) => GrowLeads(r, blocks, id, b, next, Parent(r, blocks, x), steps[1..], to);
      case Attach(x) => GrowLeads(r, blocks, id, b, next, x, steps[1..], to);
    }
  }

  lemma {:induction false} GrowBlockOk(r: Rules, blocks: Blocks, deltas: map<Id, Delta>, id: Id, b: Block, next: Blocks,
                                       d: Delta, x: Id)
    requires r.params.Valid() && Grows(r, blocks, id, b, next) && x in blocks && BlockOk(r, blocks, deltas, x)
    ensures BlockOk(r, next, deltas[id := d], x)
  {
    ParentFacts(r, blocks, x);
    ParentFacts(r, next, x);
    GrowKeeps(r, blocks, id, b, next, x);
    GrowKeeps(r, blocks, id, b, next, Parent(r, blocks, x));
  }

  lemma {:induction false} GrowSnapshots(r: Rules, blocks: Blocks, id: Id, b: Block, next: Blocks,
                                         snapshots: map<Id, State>)
    requires Grows(r, blocks, id, b, next) && SnapshotsOk(r, blocks, snapshots)
    ensures SnapshotsOk(r, next, snapshots)
  {
    forall x | x in snapshots ensures SnapshotOk(r, next, snapshots, x)
    {
      assert SnapshotOk(r, blocks, snapshots, x);
      GrowKeeps(r, blocks, id, b, next, x);
    }
  }

  /** Chainwork strictly grows from parent to child. */
  lemma {:induction false} ChainworkGrows(r: Rules, blocks: Blocks, deltas: map<Id, Delta>, id: Id)
    requires StoreOk(r, blocks, deltas) && id in blocks && id != r.genesis
    ensures Parent(r, blocks, id) in blocks && blocks[Parent(r, blocks, id)].chainwork < blocks[id].chainwork
  {
    ParentFacts(r, blocks, id);
    assert BlockOk(r, blocks, deltas, id);
  }

  /** Stored chainwork is the total work of the branch. */
  lemma {:induction false} ChainworkIsTotal(r: Rules, blocks: Blocks, deltas: map<Id, Delta>, id: Id)
    requires StoreOk(r, blocks, deltas) && id in blocks
    ensures var c := Chain(r, blocks, id);
            c != [] && TargetsAdmitted(r.params, c, |c|) && blocks[id].chainwork == ChainWork(r.params, c, |c|)
    decreases blocks[id].height
  {
    assert BlockOk(r, blocks, deltas, id);
    ParentFacts(r, blocks, id);
    if id != r.genesis {
      var p := Parent(r, blocks, id);
      ChainworkIsTotal(r, blocks, deltas, p);
      ChainWorkSnoc(r.params, Chain(r, blocks, p), blocks[id].header);
    }
  }

  lemma {:induction false} ChainWorkPrefix(p: Params, c: seq<Header>, h: Header, n: nat)
    requires p.Valid() && 1 <= n <= |c| && TargetsAdmitted(p, c, n) && TargetsAdmitted(p, c + [h], n)
    ensures ChainWork(p, c + [h], n) == ChainWork(p, c, n)
  {
    if n > 1 { ChainWorkPrefix(p, c, h, n - 1); }
  }

  lemma {:induction false} ChainWorkSnoc(p: Params, c: seq<Header>, h: Header)
    requires p.Valid() && c != [] && TargetsAdmitted(p, c, |c|) && TargetsAdmitted(p, c + [h], |c| + 1)
    requires 1 <= h.target < POW256
    ensures ChainWork(p, c + [h], |c| + 1) == ChainWork(p, c, |c|) + Work(h.target)
  {
    ChainWorkPrefix(p, c, h, |c|);
  }
}
