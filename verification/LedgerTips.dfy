/**
 The block tree joined with execution: under any encoding of ledger states as stored rows,
 the state of every admitted block is the result of its branch, with its books in order.
 */
module LedgerTips {
  import opened Wrappers
  import T = BlockTree
  import L = BlockLedger
  import opened LedgerState
  import opened BlockExecution
  import opened Runs
  import opened Releases
  import opened Chain
  import opened Solvency

  /** How ledger states are stored as rows, and how a stored body reads as the input of a block. */
  datatype Encoding = Encoding(store: State -> T.State, parse: (T.Body, T.Id) -> BlockInput)

  ghost function Stored(enc: Encoding, r: Result<State>): Option<T.State>
  {
    match r case Ok(s) => Some(enc.store(s)) case Err(_) => None
  }

  /** The tree's execution is block execution on encoded states, from an encoded good genesis. */
  ghost predicate Executes(rules: T.Rules, p: Params, enc: Encoding, genesis: State)
  {
    && Good(p, 0, genesis) && rules.genesisState == enc.store(genesis)
    && forall s, body, h, parent {:trigger rules.exec(enc.store(s), body, h, parent)} ::
         rules.exec(enc.store(s), body, h, parent) == Stored(enc, BlockResult(p, s, h, enc.parse(body, parent)))
  }

  /** The inputs of the blocks from genesis to id. */
  ghost function Branch(rules: T.Rules, blocks: T.Blocks, enc: Encoding, id: T.Id): seq<BlockInput>
    requires T.Tree(rules, blocks) && id in blocks
    decreases blocks[id].height
  {
    T.ParentFacts(rules, blocks, id);
    if id == rules.genesis then []
    else
      var parent := T.Parent(rules, blocks, id);
      Branch(rules, blocks, enc, parent) + [enc.parse(blocks[id].body, parent)]
  }

  lemma {:induction false} BranchLength(rules: T.Rules, blocks: T.Blocks, enc: Encoding, id: T.Id)
    requires T.Tree(rules, blocks) && id in blocks
    ensures |Branch(rules, blocks, enc, id)| == blocks[id].height
    decreases blocks[id].height
  {
    T.ParentFacts(rules, blocks, id);
    if id != rules.genesis { BranchLength(rules, blocks, enc, T.Parent(rules, blocks, id)); }
  }

  lemma {:induction false} ActsPrefix(p: Params, blocks: seq<BlockInput>, b: BlockInput, n: nat)
    requires n <= |blocks|
    ensures ChainActs(p, blocks + [b], n) == ChainActs(p, blocks, n)
  {
    if n > 0 { ActsPrefix(p, blocks, b, n - 1); }
  }

  lemma {:induction false} RanSnoc(mover: Mover, p: Params, genesis: State, blocks: seq<BlockInput>, b: BlockInput,
                                   s: State, t: State)
    requires RanChain(mover, p, genesis, blocks, |blocks|) == Ok(s)
    requires Ran(mover, s, BlockActs(p, |blocks| + 1, b), |BlockActs(p, |blocks| + 1, b)|) == Ok(t)
    ensures RanChain(mover, p, genesis, blocks + [b], |blocks + [b]|) == Ok(t)
  {
    ActsPrefix(p, blocks, b, |blocks|);
    assert (blocks + [b])[|blocks|] == b;
    RanChainNext(mover, p, genesis, blocks + [b], |blocks|);
  }

  // ---------- an invariant of branches reaches every block ----------

  type Invariant = (seq<BlockInput>, State) -> bool

  /** One more block on a branch, executed on a stored state, stores a state of the longer branch. */
  ghost predicate ExtendsAt(rules: T.Rules, enc: Encoding, inv: Invariant, branch: seq<BlockInput>, s: State,
                            body: T.Body, parent: T.Id)
  {
    var next := rules.exec(enc.store(s), body, |branch| + 1, parent);
    inv(branch, s) && next.Some? ==>
      exists t :: inv(branch + [enc.parse(body, parent)], t) && next.value == enc.store(t)
  }

  ghost predicate Inductive(rules: T.Rules, enc: Encoding, inv: Invariant)
  {
    forall branch, s, body, parent :: ExtendsAt(rules, enc, inv, branch, s, body, parent)
  }

  lemma {:induction false} BlockState(rules: T.Rules, blocks: T.Blocks, deltas: map<T.Id, T.Delta>, enc: Encoding,
                                      genesis: State, inv: Invariant, id: T.Id) returns (s: State)
    requires T.StoreOk(rules, blocks, deltas) && id in blocks && Inductive(rules, enc, inv)
    requires inv([], genesis) && rules.genesisState == enc.store(genesis)
    ensures inv(Branch(rules, blocks, enc, id), s) && T.Replay(rules, blocks, id) == enc.store(s)
    decreases blocks[id].height
  {
    T.ParentFacts(rules, blocks, id);
    if id == rules.genesis {
      s := genesis;
    } else {
      var parent := T.Parent(rules, blocks, id);
      var before := BlockState(rules, blocks, deltas, enc, genesis, inv, parent);
      var branch := Branch(rules, blocks, enc, parent);
      BranchLength(rules, blocks, enc, parent);
      assert T.BlockOk(rules, blocks, deltas, id);
      assert ExtendsAt(rules, enc, inv, branch, before, blocks[id].body, parent);
      s :| inv(branch + [enc.parse(blocks[id].body, parent)], s) && T.Replay(rules, blocks, id) == enc.store(s);
    }
  }

  // ---------- the books of every block ----------

  /** The state is the result of the branch, and its books are in order. */
  ghost predicate OnChain(p: Params, genesis: State, branch: seq<BlockInput>, s: State)
  {
    p.Valid() && ChainResult(p, genesis, branch, |branch|) == Ok(s) && OnBooks(p, genesis, |branch|, s)
  }

  lemma {:induction false} BooksNext(p: Params, genesis: State, h: nat, s: State, b: BlockInput, t: State)
    requires OnBooks(p, genesis, h, s) && BlockResult(p, s, h + 1, b) == Ok(t)
    ensures OnBooks(p, genesis, h + 1, t)
  {
    BlockGood(p, s, h, b);
  }

  lemma {:induction false} OnChainNext(p: Params, genesis: State, branch: seq<BlockInput>, s: State, b: BlockInput,
                                       t: State)
    requires OnChain(p, genesis, branch, s) && BlockResult(p, s, |branch| + 1, b) == Ok(t)
    ensures OnChain(p, genesis, branch + [b], t)
  {
    BooksNext(p, genesis, |branch|, s, b, t);
    BlockRun(p, s, |branch| + 1, b);
    RanSnoc(ActAt(p), p, genesis, branch, b, s, t);
  }

  lemma {:induction false} NoBlocks(p: Params, genesis: State)
    requires Good(p, 0, genesis)
    ensures OnChain(p, genesis, [], genesis)
  {
  }

  ghost function ChainInvariant(p: Params, genesis: State): Invariant
  {
    (branch: seq<BlockInput>, s: State) => OnChain(p, genesis, branch, s)
  }

  lemma {:induction false} ExecutionExtends(rules: T.Rules, p: Params, enc: Encoding, genesis: State,
                                            branch: seq<BlockInput>, s: State, body: T.Body, parent: T.Id)
    requires Executes(rules, p, enc, genesis)
    ensures ExtendsAt(rules, enc, ChainInvariant(p, genesis), branch, s, body, parent)
  {
    var r := BlockResult(p, s, |branch| + 1, enc.parse(body, parent));
    if OnChain(p, genesis, branch, s) && r.Ok? { OnChainNext(p, genesis, branch, s, enc.parse(body, parent), r.value); }
  }

  /** Every admitted block stores the result of its branch, and its books are in order. */
  lemma {:induction false} TipState(rules: T.Rules, blocks: T.Blocks, deltas: map<T.Id, T.Delta>, p: Params,
                                    enc: Encoding, genesis: State, id: T.Id) returns (s: State)
    requires T.StoreOk(rules, blocks, deltas) && id in blocks && Executes(rules, p, enc, genesis)
    ensures T.Replay(rules, blocks, id) == enc.store(s) && OnChain(p, genesis, Branch(rules, blocks, enc, id), s)
  {
    NoBlocks(p, genesis);
    forall branch, x, body, parent ensures ExtendsAt(rules, enc, ChainInvariant(p, genesis), branch, x, body, parent) {
      ExecutionExtends(rules, p, enc, genesis, branch, x, body, parent);
    }
    s := BlockState(rules, blocks, deltas, enc, genesis, ChainInvariant(p, genesis), id);
  }

  /**
   Hence on every branch no transaction is applied twice, no contribution paid twice, and every
   closed release is settled.
   */
  lemma {:induction false} TipHistory(rules: T.Rules, blocks: T.Blocks, deltas: map<T.Id, T.Delta>, p: Params,
                                      enc: Encoding, genesis: State, id: T.Id)
    requires T.StoreOk(rules, blocks, deltas) && id in blocks && Executes(rules, p, enc, genesis) && Bare(genesis)
    ensures var branch := Branch(rules, blocks, enc, id);
            && ChainResult(p, genesis, branch, |branch|).Ok?
            && NeverRepeats(p, branch) && History(p, genesis, branch)
  {
    var s := TipState(rules, blocks, deltas, p, enc, genesis, id);
    var branch := Branch(rules, blocks, enc, id);
    RunUnrepeated(p, genesis, ChainActs(p, branch, |branch|));
    HistoryHolds(p, genesis, branch);
  }

  /** After any sequence of ledger operations, stopped anywhere, the live state conserves funds. */
  method Operate(ledger: L.Ledger, ops: seq<L.Op>, ghost p: Params, ghost enc: Encoding, ghost genesis: State)
    returns (ghost s: State)
    requires ledger.Valid() && Executes(ledger.rules, p, enc, genesis)
    modifies ledger
    ensures ledger.Valid() && ledger.slot in ledger.kv && ledger.kv[ledger.slot] == enc.store(s)
    ensures TotalFunds(s) == s.issued == genesis.issued + SubsidySum(p, ledger.blocks[ledger.tip].height)
    ensures EscrowsOk(p, s.escrows) && ClearThrough(s.escrows, ledger.blocks[ledger.tip].height)
  {
    var _, _ := L.Run(ledger, ops);
    s := TipState(ledger.rules, ledger.blocks, ledger.deltas, p, enc, genesis, ledger.tip);
    BranchLength(ledger.rules, ledger.blocks, enc, ledger.tip);
  }
}
