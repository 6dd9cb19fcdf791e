/**
 Whole runs of the ledger.  A block is flattened into its acts (open, apply each transaction,
 close), so that a chain of blocks is one run of acts and a fact about all runs is a fact
 about every chain.
 */
module Runs {
  import opened Wrappers
  import opened Allocation
  import opened LedgerState
  import opened Movements
  import opened Reviews
  import opened BlockExecution

  datatype Act =
    | Begin(height: nat, count: nat)
    | Apply(height: nat, tx: Tx)
    | Finish(height: nat, fees: nat, miner: Hash, parent: Hash)

  type Mover = (State, Act) -> Result<State>

  ghost function DoAct(p: Params, s: State, act: Act): Result<State>
    requires p.Valid()
  {
    match act
    case Begin(height, count) => if count > p.maxTransactions then Err(Limit) else Ok(Opened(p, s, height))
    case Apply(height, tx) => ApplyTx(p, s, height, tx)
    case Finish(height, fees, miner, parent) => Closed(p, s, height, fees, Subsidy(p, height), miner, parent)
  }

  ghost function ActAt(p: Params): Mover
    requires p.Valid()
  {
    (s: State, act: Act) requires p.Valid() => DoAct(p, s, act)
  }

  function Applies(height: nat, txs: seq<Tx>): seq<Act>
  {
    seq(|txs|, i requires 0 <= i < |txs| => Apply(height, txs[i]))
  }

  /** What a block does, in order. */
  ghost function BlockActs(p: Params, height: nat, b: BlockInput): seq<Act>
  {
    [Begin(height, |b.transactions|)] + Applies(height, b.transactions)
    + [Finish(height, FeeSum(p, b.transactions, |b.transactions|), b.miner, b.parent)]
  }

  /** What the first n blocks do, in order. */
  ghost function ChainActs(p: Params, blocks: seq<BlockInput>, n: nat): seq<Act>
    requires n <= |blocks|
  {
    if n == 0 then [] else ChainActs(p, blocks, n - 1) + BlockActs(p, n, blocks[n - 1])
  }

  // ---------- runs ----------

  /** The state after the first n acts, where the whole run succeeds. */
  ghost function StateAt(step: Mover, s: State, acts: seq<Act>, n: nat): State
    requires n <= |acts| && Ran(step, s, acts, |acts|).Ok?
  {
    RanOk(step, s, acts, n, |acts|);
    Ran(step, s, acts, n).value
  }

  lemma {:induction false} RanOk<A>(step: (State, A) -> Result<State>, s: State, xs: seq<A>, i: nat, n: nat)
    requires i <= n <= |xs| && Ran(step, s, xs, n).Ok?
    ensures Ran(step, s, xs, i).Ok?
  {
    if Ran(step, s, xs, i).Err? { RanStops(step, s, xs, i, n); }
  }

  lemma {:induction false} StateNext(step: Mover, s: State, acts: seq<Act>, n: nat)
    requires n < |acts| && Ran(step, s, acts, |acts|).Ok?
    ensures step(StateAt(step, s, acts, n), acts[n]) == Ok(StateAt(step, s, acts, n + 1))
  {
    RanOk(step, s, acts, n + 1, |acts|);
  }

  lemma {:induction false} RanPrefix<A>(step: (State, A) -> Result<State>, s: State, xs: seq<A>, ys: seq<A>, n: nat)
    requires n <= |xs|
    ensures Ran(step, s, xs + ys, n) == Ran(step, s, xs, n)
  {
    if n > 0 { RanPrefix(step, s, xs, ys, n - 1); }
  }

  /** Two runs in a row are one run. */
  lemma {:induction false} RanAppend<A>(step: (State, A) -> Result<State>, s: State, xs: seq<A>, ys: seq<A>, n: nat)
    requires n <= |ys|
    ensures Ran(step, s, xs + ys, |xs| + n) ==
              match Ran(step, s, xs, |xs|) case Err(c) => Err(c) case Ok(t) => Ran(step, t, ys, n)
  {
    if n == 0 {
      RanPrefix(step, s, xs, ys, |xs|);
    } else {
      RanAppend(step, s, xs, ys, n - 1);
      assert (xs + ys)[|xs| + n - 1] == ys[n - 1];
    }
  }

  ghost predicate Applying(mover: Mover, step: Step, height: nat)
  {
    forall t, tx :: mover(t, Apply(height, tx)) == step(t, tx)
  }

  lemma {:induction false} RanApplies(mover: Mover, step: Step, height: nat, s: State, txs: seq<Tx>, n: nat)
    requires n <= |txs| && Applying(mover, step, height)
    ensures Ran(mover, s, Applies(height, txs), n) == Ran(step, s, txs, n)
  {
    if n > 0 { RanApplies(mover, step, height, s, txs, n - 1); }
  }

  lemma {:induction false} RanOne(mover: Mover, s: State, act: Act)
    ensures Ran(mover, s, [act], 1) == mover(s, act)
  {
    assert Ran(mover, s, [act], 0) == Ok(s);
  }

  /** The acts of a block run to its result, whatever the three kinds of act do. */
  lemma {:induction false} RunOfBlock(mover: Mover, step: Step, p: Params, s: State, height: nat, b: BlockInput)
    requires Applying(mover, step, height)
    ensures var acts := BlockActs(p, height, b);
            Ran(mover, s, acts, |acts|) ==
              match mover(s, Begin(height, |b.transactions|))
              case Err(c) => Err(c)
              case Ok(t) =>
                match Ran(step, t, b.transactions, |b.transactions|)
                case Err(c) => Err(c)
                case Ok(u) => mover(u, Finish(height, FeeSum(p, b.transactions, |b.transactions|), b.miner, b.parent))
  {
    var first, middle := [Begin(height, |b.transactions|)], Applies(height, b.transactions);
    var last := [Finish(height, FeeSum(p, b.transactions, |b.transactions|), b.miner, b.parent)];
    RanAppend(mover, s, first + middle, last, 1);
    RanAppend(mover, s, first, middle, |middle|);
    RanOne(mover, s, first[0]);
    if mover(s, first[0]).Ok? {
      var t := mover(s, first[0]).value;
      RanApplies(mover, step, height, t, b.transactions, |b.transactions|);
      var run := Ran(step, t, b.transactions, |b.transactions|);
      if run.Ok? { RanOne(mover, run.value, last[0]); }
    }
  }

  /** A block is its acts. */
  lemma {:induction false} BlockRun(p: Params, s: State, height: nat, b: BlockInput)
    requires p.Valid()
    ensures Ran(ActAt(p), s, BlockActs(p, height, b), |BlockActs(p, height, b)|) == BlockResult(p, s, height, b)
  {
    RunOfBlock(ActAt(p), StepAt(p, height), p, s, height, b);
  }

  // ---------- nonces ----------

  /** How many of the first n acts apply a transaction of the account. */
  ghost function Sent(acts: seq<Act>, n: nat, a: Hash): nat
    requires n <= |acts|
  {
    if n == 0 then 0 else Sent(acts, n - 1, a) + If(acts[n - 1].Apply? && acts[n - 1].tx.sender == a, 1)
  }

  lemma {:induction false} SentGrows(acts: seq<Act>, i: nat, j: nat, a: Hash)
    requires i <= j <= |acts|
    ensures Sent(acts, i, a) <= Sent(acts, j, a)
  {
    if i < j { SentGrows(acts, i, j - 1, a); }
  }

  ghost predicate ActNonces(step: Mover, t: State, act: Act, a: Hash)
  {
    var r := step(t, act);
    r.Ok? ==>
      && (act.Apply? ==> act.tx.nonce == Get(t, act.tx.sender).nonce + 1)
      && Get(r.value, a).nonce == Get(t, a).nonce + If(act.Apply? && act.tx.sender == a, 1)
  }

  lemma {:induction false} ActUsesNonce(p: Params, t: State, act: Act, a: Hash)
    requires p.Valid()
    ensures ActNonces(ActAt(p), t, act, a)
  {
    if act.Apply? && ApplyTx(p, t, act.height, act.tx).Ok? { NonceAdvances(p, act.height, t, act.tx, a); }
  }

  lemma {:induction false} RanNonces(step: Mover, s: State, acts: seq<Act>, n: nat, a: Hash)
    requires n <= |acts| && Ran(step, s, acts, n).Ok? && forall t, act, x :: ActNonces(step, t, act, x)
    ensures Get(Ran(step, s, acts, n).value, a).nonce == Get(s, a).nonce + Sent(acts, n, a)
  {
    if n > 0 {
      RanNonces(step, s, acts, n - 1, a);
      assert ActNonces(step, Ran(step, s, acts, n - 1).value, acts[n - 1], a);
    }
  }

  lemma {:induction false} NonceAt(step: Mover, s: State, acts: seq<Act>, i: nat)
    requires i < |acts| && acts[i].Apply? && Ran(step, s, acts, |acts|).Ok?
    requires forall t, act, x :: ActNonces(step, t, act, x)
    ensures acts[i].tx.nonce == Get(s, acts[i].tx.sender).nonce + Sent(acts, i, acts[i].tx.sender) + 1
  {
    RanOk(step, s, acts, i, |acts|);
    RanOk(step, s, acts, i + 1, |acts|);
    RanNonces(step, s, acts, i, acts[i].tx.sender);
    assert ActNonces(step, Ran(step, s, acts, i).value, acts[i], acts[i].tx.sender);
  }

  lemma {:induction false} NeverTwice(step: Mover, s: State, acts: seq<Act>, i: nat, j: nat)
    requires i < j < |acts| && acts[i].Apply? && acts[j].Apply? && Ran(step, s, acts, |acts|).Ok?
    requires forall t, act, x :: ActNonces(step, t, act, x)
    ensures acts[i].tx != acts[j].tx
  {
    NonceAt(step, s, acts, i);
    NonceAt(step, s, acts, j);
    SentGrows(acts, i + 1, j, acts[i].tx.sender);
  }

  /** A run moves an account's nonce on by the number of its transactions that were applied. */
  lemma {:induction false} RunNonces(p: Params, s: State, acts: seq<Act>, a: Hash)
    requires p.Valid() && Ran(ActAt(p), s, acts, |acts|).Ok?
    ensures Get(Ran(ActAt(p), s, acts, |acts|).value, a).nonce == Get(s, a).nonce + Sent(acts, |acts|, a)
  {
    forall t, act, x ensures ActNonces(ActAt(p), t, act, x) { ActUsesNonce(p, t, act, x); }
    RanNonces(ActAt(p), s, acts, |acts|, a);
  }

  /** No transaction is applied at two places of a run. */
  lemma {:induction false} NoReplay(p: Params, s: State, acts: seq<Act>, i: nat, j: nat)
    requires p.Valid() && i < j < |acts| && acts[i].Apply? && acts[j].Apply? && Ran(ActAt(p), s, acts, |acts|).Ok?
    ensures acts[i].tx != acts[j].tx
  {
    forall t, act, x ensures ActNonces(ActAt(p), t, act, x) { ActUsesNonce(p, t, act, x); }
    NeverTwice(ActAt(p), s, acts, i, j);
  }

  // ---------- reviews ----------

  lemma {:induction false} RetireReviewed(p: Params, s: State, height: nat)
    requires p.roundBlocks > 0 && AllReviewed(p, s)
    ensures AllReviewed(p, Retire(p, s, height))
  {
    var t := Retire(p, s, height);
    forall k | k in t.contributions ensures Reviewed(p, t.contributions[k]) { assert Reviewed(p, s.contributions[k]); }
  }

  lemma {:induction false} SameReviews(p: Params, s: State, t: State)
    requires AllReviewed(p, s) && t.contributions == s.contributions
    ensures AllReviewed(p, t)
  {
    forall k | k in t.contributions ensures Reviewed(p, t.contributions[k]) { assert Reviewed(p, s.contributions[k]); }
  }

  ghost predicate ActReviews(p: Params, step: Mover, t: State, act: Act)
  {
    AllReviewed(p, t) && step(t, act).Ok? ==> AllReviewed(p, step(t, act).value)
  }

  lemma {:induction false} ActReviewed(p: Params, t: State, act: Act)
    requires p.Valid() && p.threshold > 0
    ensures ActReviews(p, ActAt(p), t, act)
  {
    if AllReviewed(p, t) && DoAct(p, t, act).Ok? {
      match act
      case Begin(height, _) => {
        RetireReviewed(p, t, height);
        SameReviews(p, Retire(p, t, height), Opened(p, t, height));
      }
      case Apply(height, tx) => TransactionReviewed(p, height, t, tx);
      case Finish(_, _, _, _) => SameReviews(p, t, DoAct(p, t, act).value);
    }
  }

  lemma {:induction false} RanReviewed(p: Params, step: Mover, s: State, acts: seq<Act>, n: nat)
    requires n <= |acts| && AllReviewed(p, s) && Ran(step, s, acts, n).Ok?
    requires forall t, act :: ActReviews(p, step, t, act)
    ensures AllReviewed(p, Ran(step, s, acts, n).value)
  {
    if n > 0 {
      RanReviewed(p, step, s, acts, n - 1);
      assert ActReviews(p, step, Ran(step, s, acts, n - 1).value, acts[n - 1]);
    }
  }

  /** The review rules hold at every point of a run: no score is ever adopted without the threshold's agreement. */
  lemma {:induction false} RunReviewed(p: Params, s: State, acts: seq<Act>, n: nat)
    requires p.Valid() && p.threshold > 0 && AllReviewed(p, s) && n <= |acts| && Ran(ActAt(p), s, acts, n).Ok?
    ensures AllReviewed(p, Ran(ActAt(p), s, acts, n).value)
  {
    forall t, act ensures ActReviews(p, ActAt(p), t, act) { ActReviewed(p, t, act); }
    RanReviewed(p, ActAt(p), s, acts, n);
  }
}
