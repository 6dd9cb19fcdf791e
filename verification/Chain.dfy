/**
 Chains of blocks: genesis, execution of any number of blocks, and what holds after every one.
 */
module Chain {
  import opened Wrappers
  import opened Allocation
  import opened MapSums
  import opened LedgerState
  import opened Solvency
  import opened Reviews
  import opened BlockExecution
  import opened Runs
  import opened Releases

  // ---------- the chain ----------

  ghost function SubsidySum(p: Params, h: nat): nat
    requires p.halvingInterval > 0
  {
    if h == 0 then 0 else SubsidySum(p, h - 1) + Subsidy(p, h)
  }

  lemma {:induction false} SubsidiesGrow(p: Params, h: nat, k: nat)
    requires p.halvingInterval > 0 && h <= k
    ensures SubsidySum(p, h) <= SubsidySum(p, k)
  {
    if h < k { SubsidiesGrow(p, h, k - 1); }
  }

  function Owners(keys: seq<Hash>): set<Hash>
  {
    if keys == [] then {} else Owners(keys[..|keys| - 1]) + {keys[|keys| - 1]}
  }

  ghost predicate Distinct(keys: seq<Hash>)
  {
    keys == [] || (Distinct(keys[..|keys| - 1]) && keys[|keys| - 1] !in Owners(keys[..|keys| - 1]))
  }

  /** Repeated keys are counted once. */
  lemma {:induction false} OwnerCount(keys: seq<Hash>)
    ensures |Owners(keys)| <= |keys|
    ensures |Owners(keys)| == |keys| <==> Distinct(keys)
  {
    if keys != [] {
      OwnerCount(keys[..|keys| - 1]);
      if keys[|keys| - 1] in Owners(keys[..|keys| - 1]) { assert Owners(keys) == Owners(keys[..|keys| - 1]); }
    }
  }

  /** The funding of n accounts. */
  ghost function Funding(n: nat, each: nat): nat
  {
    if n == 0 then 0 else Funding(n - 1, each) + each
  }

  lemma {:induction false} FundingExact(m: nat, n: nat, each: nat)
    requires m <= n
    ensures Funding(m, each) <= Funding(n, each)
    ensures Funding(m, each) == Funding(n, each) <==> m == n || each == 0
  {
    if m < n { FundingExact(m, n - 1, each); }
  }

  lemma {:induction false} OwnersNext(keys: seq<Hash>, i: nat, accounts: map<Hash, Account>, each: nat)
    requires i < |keys| && accounts.Keys == Owners(keys[..i])
    requires forall a :: a in accounts ==> accounts[a] == Account(each, 0)
    requires Sum(accounts, BalanceOf) == Funding(|Owners(keys[..i])|, each)
    ensures var next := accounts[keys[i] := Account(each, 0)];
            && next.Keys == Owners(keys[..i + 1])
            && Sum(next, BalanceOf) == Funding(|Owners(keys[..i + 1])|, each)
  {
    assert keys[..i + 1][..i] == keys[..i];
    SumSet(accounts, BalanceOf, keys[i], Account(each, 0));
    if keys[i] in accounts { assert Owners(keys[..i + 1]) == Owners(keys[..i]); }
  }

  /** The source's `genesis_state`: every account is set to the funding, which is issued once per key. */
  method Genesis(keys: seq<Hash>, funding: nat, model: Hash, maintenance: Hash) returns (s: State)
    ensures s == State(s.accounts, map[], map[], map[], {}, {maintenance}, Funding(|keys|, funding), model)
    ensures s.accounts.Keys == Owners(keys) && forall a :: a in s.accounts ==> s.accounts[a] == Account(funding, 0)
    ensures TotalFunds(s) == Funding(|Owners(keys)|, funding)
  {
    s := State(map[], map[], map[], map[], {}, {maintenance}, 0, model);
    var i := 0;
    while i < |keys|
      invariant 0 <= i <= |keys|
      invariant s == State(s.accounts, map[], map[], map[], {}, {maintenance}, Funding(i, funding), model)
      invariant s.accounts.Keys == Owners(keys[..i]) && forall a :: a in s.accounts ==>
                  s.accounts[a] == Account(funding, 0)
      invariant Sum(s.accounts, BalanceOf) == Funding(|Owners(keys[..i])|, funding)
    {
      OwnersNext(keys, i, s.accounts, funding);
      s := s.(accounts := s.accounts[keys[i] := Account(funding, 0)], issued := s.issued + funding);
      i := i + 1;
    }
    assert keys[..i] == keys;
  }

  /** Genesis starts the invariant exactly when no key repeats (or nothing is issued) and the issue fits u64. */
  lemma {:induction false} GenesisGood(p: Params, keys: seq<Hash>, funding: nat, s: State)
    requires p.Valid() && s.escrows == map[] && s.rewards == map[]
    requires s.issued == Funding(|keys|, funding) && TotalFunds(s) == Funding(|Owners(keys)|, funding)
    ensures Good(p, 0, s) <==> (Distinct(keys) || funding == 0) && Funding(|keys|, funding) < U64
  {
    OwnerCount(keys);
    FundingExact(|Owners(keys)|, |keys|, funding);
    forall d ensures SlotOk(p, s.escrows, d) { assert DueAt(s.escrows, d) == {}; }
  }

  /** No transaction is applied at two places. */
  ghost predicate Unrepeated(acts: seq<Act>)
  {
    forall i, j :: 0 <= i < j < |acts| && acts[i].Apply? && acts[j].Apply? ==> acts[i].tx != acts[j].tx
  }

  lemma {:induction false} RunUnrepeated(p: Params, s: State, acts: seq<Act>)
    requires p.Valid() && Ran(ActAt(p), s, acts, |acts|).Ok?
    ensures Unrepeated(acts)
  {
    forall i, j | 0 <= i < j < |acts| && acts[i].Apply? && acts[j].Apply? ensures acts[i].tx != acts[j].tx {
      NoReplay(p, s, acts, i, j);
    }
  }

  /** The result of the acts of the first n blocks. */
  ghost function RanChain(mover: Mover, p: Params, genesis: State, blocks: seq<BlockInput>, n: nat): Result<State>
    requires n <= |blocks|
  {
    Ran(mover, genesis, ChainActs(p, blocks, n), |ChainActs(p, blocks, n)|)
  }

  /** The result of the first n blocks. */
  ghost function ChainResult(p: Params, genesis: State, blocks: seq<BlockInput>, n: nat): Result<State>
    requires p.Valid() && n <= |blocks|
  {
    RanChain(ActAt(p), p, genesis, blocks, n)
  }

  lemma {:induction false} RanChainNext(mover: Mover, p: Params, genesis: State, blocks: seq<BlockInput>, n: nat)
    requires n < |blocks|
    ensures RanChain(mover, p, genesis, blocks, n + 1) ==
              match RanChain(mover, p, genesis, blocks, n)
              case Err(c) => Err(c)
              case Ok(s) => Ran(mover, s, BlockActs(p, n + 1, blocks[n]), |BlockActs(p, n + 1, blocks[n])|)
  {
    RanAppend(mover, genesis, ChainActs(p, blocks, n), BlockActs(p, n + 1, blocks[n]),
              |BlockActs(p, n + 1, blocks[n])|);
  }

  lemma {:induction false} RanChainStops(mover: Mover, p: Params, genesis: State, blocks: seq<BlockInput>, n: nat,
                                         m: nat)
    requires n <= m <= |blocks| && RanChain(mover, p, genesis, blocks, n).Err?
    ensures RanChain(mover, p, genesis, blocks, m) == RanChain(mover, p, genesis, blocks, n)
  {
    if n < m {
      RanChainStops(mover, p, genesis, blocks, n, m - 1);
      RanChainNext(mover, p, genesis, blocks, m - 1);
    }
  }

  /** The mover takes a block to its result. */
  ghost predicate Obeys(p: Params, mover: Mover)
    requires p.Valid()
  {
    forall s, h, b {:trigger BlockResult(p, s, h, b)} ::
      Ran(mover, s, BlockActs(p, h, b), |BlockActs(p, h, b)|) == BlockResult(p, s, h, b)
  }

  lemma {:induction false} ActsObey(p: Params)
    requires p.Valid()
    ensures Obeys(p, ActAt(p))
  {
    forall s, h, b ensures Ran(ActAt(p), s, BlockActs(p, h, b), |BlockActs(p, h, b)|) == BlockResult(p, s, h, b) {
      BlockRun(p, s, h, b);
    }
  }

  /** What holds of the run of a whole chain from a bare genesis. */
  ghost predicate History(p: Params, genesis: State, blocks: seq<BlockInput>)
    requires p.Valid() && ChainResult(p, genesis, blocks, |blocks|).Ok?
  {
    var acts := ChainActs(p, blocks, |blocks|);
    PaidOnce(acts) && BudgetsSettled(p, genesis, acts, |blocks|)
  }

  lemma {:induction false} HistoryHolds(p: Params, genesis: State, blocks: seq<BlockInput>)
    requires p.Valid() && Bare(genesis) && ChainResult(p, genesis, blocks, |blocks|).Ok?
    requires ClearThrough(ChainResult(p, genesis, blocks, |blocks|).value.escrows, |blocks|)
    ensures History(p, genesis, blocks)
  {
    var acts := ChainActs(p, blocks, |blocks|);
    ContributionsPaidOnce(p, genesis, acts);
    ReleasesSettled(p, genesis, acts, |blocks|);
  }

  /** The reviews hold after every chain. */
  lemma {:induction false} ChainReviewed(p: Params, genesis: State, blocks: seq<BlockInput>)
    requires p.Valid() && p.threshold > 0 && AllReviewed(p, genesis) && ChainResult(p, genesis, blocks, |blocks|).Ok?
    ensures AllReviewed(p, ChainResult(p, genesis, blocks, |blocks|).value)
  {
    RunReviewed(p, genesis, ChainActs(p, blocks, |blocks|), |ChainActs(p, blocks, |blocks|)|);
  }

  method NextBlock(p: Params, ghost mover: Mover, s: State, h: nat, b: BlockInput) returns (r: Result<State>)
    requires Good(p, h, s) && Obeys(p, mover)
    ensures r == Ran(mover, s, BlockActs(p, h + 1, b), |BlockActs(p, h + 1, b)|)
    ensures r.Ok? ==> Good(p, h + 1, r.value) && r.value.issued == s.issued + Subsidy(p, h + 1)
    ensures r.Err? ==> r.code != Conservation && (r.code == Range ==> s.issued + Subsidy(p, h + 1) >= U64)
  {
    var next := ExecuteBlock(p, s, h, b);
    if next.Err? { return Err(next.code); }
    r := Ok(next.value.state);
  }

  /** The books after h blocks: the invariant, and the subsidies of h blocks issued. */
  ghost predicate OnBooks(p: Params, genesis: State, h: nat, s: State)
  {
    Good(p, h, s) && s.issued == genesis.issued + SubsidySum(p, h)
  }

  /** Conservation never fails, and RANGE only when the supply of h blocks would leave u64. */
  ghost predicate Justified(p: Params, genesis: State, h: nat, code: Code)
    requires p.Valid()
  {
    code != Conservation && (code == Range ==> genesis.issued + SubsidySum(p, h) >= U64)
  }

  /** No transaction is applied at two places of the chain. */
  ghost predicate NeverRepeats(p: Params, blocks: seq<BlockInput>)
  {
    Unrepeated(ChainActs(p, blocks, |blocks|))
  }

  /**
   Any chain of blocks.  After every one of them the funds on the books are exactly the
   subsidies issued so far, every funded object is backed, and nothing due is left funded.
   No transaction is applied twice anywhere in it, no contribution is paid twice, and every
   release whose window has closed paid and refunded exactly its budget.
   */
  method ExecuteChain(p: Params, genesis: State, blocks: seq<BlockInput>) returns (r: Result<State>)
    requires Good(p, 0, genesis)
    ensures r == ChainResult(p, genesis, blocks, |blocks|)
    ensures r.Ok? ==> OnBooks(p, genesis, |blocks|, r.value)
    ensures r.Err? ==> Justified(p, genesis, |blocks|, r.code)
    ensures r.Ok? && p.threshold > 0 && AllReviewed(p, genesis) ==> AllReviewed(p, r.value)
    ensures r.Ok? ==> NeverRepeats(p, blocks)
    ensures r.Ok? && Bare(genesis) ==> History(p, genesis, blocks)
  {
    ActsObey(p);
    r := ExecuteBlocks(p, ActAt(p), genesis, blocks);
    if r.Ok? {
      RunUnrepeated(p, genesis, ChainActs(p, blocks, |blocks|));
      if p.threshold > 0 && AllReviewed(p, genesis) { ChainReviewed(p, genesis, blocks); }
      if Bare(genesis) { HistoryHolds(p, genesis, blocks); }
    }
  }

  /** One more block of the chain; an error is the error of the whole chain. */
  method ExtendChain(p: Params, ghost mover: Mover, ghost genesis: State, blocks: seq<BlockInput>, h: nat, s: State)
    returns (r: Result<State>)
    requires h < |blocks| && OnBooks(p, genesis, h, s) && Obeys(p, mover)
    requires RanChain(mover, p, genesis, blocks, h) == Ok(s)
    ensures r == RanChain(mover, p, genesis, blocks, h + 1)
    ensures r.Ok? ==> OnBooks(p, genesis, h + 1, r.value)
    ensures r.Err? ==> r == RanChain(mover, p, genesis, blocks, |blocks|)
    ensures r.Err? ==> Justified(p, genesis, |blocks|, r.code)
  {
    r := NextBlock(p, mover, s, h, blocks[h]);
    RanChainNext(mover, p, genesis, blocks, h);
    SubsidiesGrow(p, h + 1, |blocks|);
    if r.Err? { RanChainStops(mover, p, genesis, blocks, h + 1, |blocks|); }
  }

  method ExecuteBlocks(p: Params, ghost mover: Mover, genesis: State, blocks: seq<BlockInput>)
    returns (r: Result<State>)
    requires Good(p, 0, genesis) && Obeys(p, mover)
    ensures r == RanChain(mover, p, genesis, blocks, |blocks|)
    ensures r.Ok? ==> OnBooks(p, genesis, |blocks|, r.value)
    ensures r.Err? ==> Justified(p, genesis, |blocks|, r.code)
  {
    r := Ok(genesis);
    var h := 0;
    while h < |blocks|
      invariant 0 <= h <= |blocks| && r.Ok? && OnBooks(p, genesis, h, r.value)
      invariant RanChain(mover, p, genesis, blocks, h) == r
    {
      r := ExtendChain(p, mover, genesis, blocks, h, r.value);
      if r.Err? { return; }
      h := h + 1;
    }
  }
}
