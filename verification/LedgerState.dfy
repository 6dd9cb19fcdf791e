/**
 The ledger state and its twelve transaction commands.  A transaction either yields a new
 state or the error code of the first check that fails, in the order the source checks.
 */
module LedgerState {
  import opened Wrappers
  import opened Allocation
  import opened MapSums

  const U64: nat := 0x1_0000_0000_0000_0000

  datatype Code = Limit | Range | Network | Nonce | Late | Signature | Fee | Funds | ResourceId | Duplicate
                | Authority | WrongState | Evidence | RootMismatch | SubmissionRound | WindowFull | Conservation
                | NonCanonical

  type Result<+T> = Try<T, Code>

  datatype Check = Pass | Fail(code: Code) {
    predicate IsFailure() { Fail? }
    function PropagateFailure<U>(): Result<U> requires Fail? { Err(code) }
  }

  function Need(ok: bool, code: Code): Check { if ok then Pass else Fail(code) }

  /** Protocol parameters; `entriesFit` says whether every encoded key and value is within its size limit. */
  datatype Params = Params(
    network: Hash, family: Hash, plan: Hash, evaluators: set<Hash>, le: Order,
    maxTransactions: nat, mandatoryExpiry: nat, byteFee: nat, maxTaskLifetime: nat, maxPending: nat,
    rewardMaturity: nat, claimWindow: nat, roundBlocks: nat, maxHistory: nat, maxArtifactBytes: nat,
    maxCandidates: nat, candidateLifetime: nat, threshold: nat, maxScore: nat, minAdoption: nat,
    maxQuotaUnits: nat, quotaPrice: nat, subsidy: nat, halvingInterval: nat, maxStateKeys: nat,
    entriesFit: State -> bool)
  {
    ghost predicate Valid()
    {
      roundBlocks > 0 && halvingInterval > 0 && Total(le) && forall a, b, c :: le(a, b) && le(b, c) ==> le(a, c)
    }
  }

  // ---------- state ----------

  datatype Account = Account(balance: nat, nonce: nat)

  datatype Status = Reserved | Receipt | Cancelled | Settled | Expired | Open | Spent

  /** The three kinds of funded object: each has an owner, remaining funds, a deadline and a status. */
  datatype Escrow = Escrow(owner: Hash, remaining: nat, deadline: nat, status: Status, detail: Detail)

  datatype Detail =
    | Task(provider: Hash, output: Hash)
    | Quota(consumer: Hash, provider: Hash, units: nat)
    | Release(budget: nat, total: nat, root: Hash, maturity: nat, leafCount: nat, claims: map<Hash, nat>)

  datatype Key = TaskKey(id: Hash) | QuotaKey(id: Hash) | ReleaseKey(id: Hash)

  datatype Pending = Pending(owner: Hash, amount: nat, maturity: nat)

  datatype Stage = Submitted | Evaluated | Adopted | Retired

  datatype Vote = Vote(score: nat, evidence: Hash)

  datatype Contribution = Contribution(owner: Hash, artifact: Hash, components: Hash, family: Hash, parent: Hash,
                                       votes: map<Hash, Vote>, score: nat, stage: Stage, submitted: nat, round: nat)

  datatype Artifact = Artifact(parent: Hash, round: nat, artifact: Hash)

  datatype State = State(accounts: map<Hash, Account>, escrows: map<Key, Escrow>, rewards: map<Hash, Pending>,
                         contributions: map<Hash, Contribution>, artifacts: set<Artifact>, works: set<Hash>,
                         issued: nat, current: Hash)

  function BalanceOf(a: Account): nat { a.balance }
  function RemainingOf(e: Escrow): nat { e.remaining }
  function AmountOf(r: Pending): nat { r.amount }

  /** Everything the state owes: balances, escrows and immature rewards. */
  ghost function TotalFunds(s: State): nat
  {
    Sum(s.accounts, BalanceOf) + Sum(s.escrows, RemainingOf) + Sum(s.rewards, AmountOf)
  }

  // ---------- accounts ----------

  function Get(s: State, who: Hash): Account
  {
    if who in s.accounts then s.accounts[who] else Account(0, 0)
  }

  function Put(s: State, who: Hash, a: Account): State
  {
    s.(accounts := s.accounts[who := a])
  }

  /** Adds to a balance, rejecting a result outside u64. */
  function Credit(s: State, who: Hash, n: nat): Result<State>
  {
    var a := Get(s, who);
    if a.balance + n >= U64 then Err(Range) else Ok(Put(s, who, a.(balance := a.balance + n)))
  }

  /** The `pay` helper: a positive amount the sender can cover. */
  function Pay(s: State, who: Hash, n: nat): Result<State>
  {
    var a := Get(s, who);
    if n > 0 && a.balance >= n then Ok(Put(s, who, a.(balance := a.balance - n))) else Err(Funds)
  }

  // ---------- deadlines ----------

  function Funded(m: map<Key, Escrow>): set<Key> { set k | k in m && m[k].remaining > 0 }
  function DueAt(m: map<Key, Escrow>, d: nat): set<Key> { set k | k in m && m[k].remaining > 0 && m[k].deadline == d }

  function DeadlineCheck(p: Params, s: State, height: nat, d: nat, lifetime: nat): Check
  {
    if !(height < d <= height + lifetime) then Fail(Late)
    else if |Funded(s.escrows)| >= p.maxPending then Fail(Limit)
    else if |DueAt(s.escrows, d)| >= p.mandatoryExpiry then Fail(Limit)
    else Pass
  }

  // ---------- commands ----------

  datatype Command =
    | Transfer(recipient: Hash, amount: nat)
    | ReserveTask(task: Hash, provider: Hash, budget: nat, deadline: nat)
    | CancelTask(task: Hash)
    | RecordReceipt(task: Hash, output: Hash)
    | AcceptTask(task: Hash, output: Hash)
    | Contribute(contribution: Hash, family: Hash, parent: Hash, artifact: Hash, size: nat, components: Hash,
                 round: nat)
    | Evaluate(contribution: Hash, plan: Hash, evidence: Hash, score: nat)
    | PublishRelease(release: Hash, parent: Hash, bundle: Hash, budget: nat, allocationRoot: Hash, totalScore: nat,
                     allocations: seq<(Hash, nat)>)
    | ClaimReward(release: Hash, contribution: Hash, score: nat, siblings: seq<Hash>)
    | ReserveQuota(quota: Hash, consumer: Hash, provider: Hash, units: nat, deadline: nat)
    | ConsumeQuota(quota: Hash, units: nat, result: Hash, consumerSigned: bool)
    | RegisterWork(commitment: Hash)

  /** A decoded transaction; `signed` says whether its strict signature verifies. */
  datatype Tx = Tx(network: Hash, sender: Hash, nonce: nat, expiry: nat, feeLimit: nat, size: nat, signed: bool,
                   command: Command)

  function BaseFee(c: Command): nat
  {
    match c
    case Transfer(_, _) => 100
    case ReserveTask(_, _, _, _) => 180
    case CancelTask(_) => 100
    case RecordReceipt(_, _) => 120
    case AcceptTask(_, _) => 120
    case Contribute(_, _, _, _, _, _, _) => 200
    case Evaluate(_, _, _, _) => 160
    case PublishRelease(_, _, _, _, _, _, _) => 300
    case ClaimReward(_, _, _, _) => 200
    case ReserveQuota(_, _, _, _, _) => 160
    case ConsumeQuota(_, _, _, _) => 0
    case RegisterWork(_) => 120
  }

  function FeeOf(p: Params, tx: Tx): nat { BaseFee(tx.command) + tx.size * p.byteFee }

  /** What the closed codec accepts: allocations are one to sixteen, in strictly ascending contribution order. */
  predicate Canonical(p: Params, c: Command)
  {
    && (c.PublishRelease? ==>
          1 <= |c.allocations| <= 16
          && forall i, j :: 0 <= i < j < |c.allocations| ==>
               p.le(c.allocations[i].0, c.allocations[j].0) && c.allocations[i].0 != c.allocations[j].0)
    && (c.ClaimReward? ==> |c.siblings| <= 8)
  }

  function DoTransfer(s: State, sender: Hash, recipient: Hash, amount: nat): Result<State>
  {
    var paid :- Pay(s, sender, amount);
    Credit(paid, recipient, amount)
  }

  function DoReserveTask(p: Params, s: State, height: nat, tx: Tx, c: Command): Result<State>
    requires c.ReserveTask?
  {
    var k := TaskKey(c.task);
    :- Need(c.task == TaskId(tx.sender, tx.nonce, c.provider, c.budget, c.deadline), ResourceId);
    :- Need(k !in s.escrows, Duplicate);
    :- DeadlineCheck(p, s, height, c.deadline, p.maxTaskLifetime);
    var paid :- Pay(s, tx.sender, c.budget);
    Ok(paid.(escrows := paid.escrows[k := Escrow(tx.sender, c.budget, c.deadline, Reserved, Task(c.provider, ZERO))]))
  }

  function DoCancelTask(s: State, sender: Hash, task: Hash): Result<State>
  {
    var k := TaskKey(task);
    :- Need(k in s.escrows && s.escrows[k].detail.Task?, WrongState);
    var e := s.escrows[k];
    :- Need(e.owner == sender, Authority);
    :- Need(e.status == Reserved, WrongState);
    var paid :- Credit(s, sender, e.remaining);
    Ok(paid.(escrows := paid.escrows[k := e.(remaining := 0, status := Cancelled)]))
  }

  function DoRecordReceipt(s: State, height: nat, sender: Hash, task: Hash, output: Hash): Result<State>
  {
    var k := TaskKey(task);
    :- Need(k in s.escrows && s.escrows[k].detail.Task?, WrongState);
    var e := s.escrows[k];
    :- Need(e.detail.provider == sender, Authority);
    :- Need(e.status == Reserved && height < e.deadline, WrongState);
    :- Need(output != ZERO, Evidence);
    Ok(s.(escrows := s.escrows[k := e.(status := Receipt, detail := e.detail.(output := output))]))
  }

  function DoAcceptTask(s: State, height: nat, sender: Hash, task: Hash, output: Hash): Result<State>
  {
    var k := TaskKey(task);
    :- Need(k in s.escrows && s.escrows[k].detail.Task?, WrongState);
    var e := s.escrows[k];
    :- Need(e.owner == sender, Authority);
    :- Need(e.status == Receipt && height < e.deadline && e.detail.output == output, WrongState);
    var paid :- Credit(s, e.detail.provider, e.remaining);
    Ok(paid.(escrows := paid.escrows[k := e.(remaining := 0, status := Settled)]))
  }

  predicate CandidateActive(p: Params, c: Contribution, current: Hash, height: nat)
    requires p.Valid()
  {
    && c.parent == current
    && c.round == height / p.roundBlocks
    && (c.stage == Submitted || (c.stage == Evaluated && c.score > 0))
    && height <= c.submitted + p.candidateLifetime
  }

  function DoContribute(p: Params, s: State, height: nat, sender: Hash, c: Command): Result<State>
    requires p.Valid() && c.Contribute?
  {
    var mark := Artifact(c.parent, c.round, c.artifact);
    :- Need(c.contribution == ContributionId(sender, c.family, c.parent, c.artifact, c.components, c.round),
            RootMismatch);
    :- Need(c.round == height / p.roundBlocks, SubmissionRound);
    :- Need(c.family == p.family && c.parent == s.current, WrongState);
    :- Need(|s.contributions| < p.maxHistory, WindowFull);
    :- Need(0 < c.size <= p.maxArtifactBytes, Limit);
    :- Need(c.artifact != ZERO, Evidence);
    var active := set k | k in s.contributions && CandidateActive(p, s.contributions[k], s.current, height);
    :- Need(|active| < p.maxCandidates, Limit);
    :- Need(c.contribution !in s.contributions && mark !in s.artifacts, Duplicate);
    Ok(s.(contributions := s.contributions[c.contribution :=
            Contribution(sender, c.artifact, c.components, c.family, c.parent, map[], 0, Submitted, height, c.round)],
          artifacts := s.artifacts + {mark}))
  }

  lemma {:induction false} LeastExists(xs: set<nat>) returns (m: nat)
    requires xs != {}
    ensures m in xs && forall x :: x in xs ==> m <= x
  {
    m :| m in xs;
    if x :| x in xs && x < m {
      var rest := set y | y in xs && y < m;
      assert x in rest && m !in rest;
      assert rest < xs;
      var bound := m;
      m := LeastExists(rest);
      assert forall y :: y in xs ==> y in rest || bound <= y;
    }
  }

  function LeastScore(votes: map<Hash, Vote>): nat
    requires votes.Keys != {}
  {
    var scores := set v | v in votes.Keys :: votes[v].score;
    var v :| v in votes.Keys;
    assert votes[v].score in scores;
    assert exists x :: x in scores && forall y :: y in scores ==> x <= y by { var _ := LeastExists(scores); }
    var m :| m in scores && forall x :: x in scores ==> m <= x;
    m
  }

  function DoEvaluate(p: Params, s: State, sender: Hash, c: Command): Result<State>
    requires c.Evaluate?
  {
    var known := c.contribution in s.contributions;
    :- Need(known, WrongState);
    var o := s.contributions[c.contribution];
    :- Need(sender in p.evaluators && sender != o.owner, Authority);
    :- Need(o.stage == Submitted && o.parent == s.current, WrongState);
    :- Need(sender !in o.votes, Duplicate);
    :- Need(c.plan == p.plan && c.evidence != ZERO && c.score <= p.maxScore, Evidence);
    var votes := o.votes[sender := Vote(c.score, c.evidence)];
    var next := if |votes| >= p.threshold then o.(votes := votes, score := LeastScore(votes), stage := Evaluated)
                else o.(votes := votes);
    Ok(s.(contributions := s.contributions[c.contribution := next]))
  }

  /** The committed rows: every allocated contribution is evaluated on the current release with the stated score. */
  function AllocatedRows(s: State, allocations: seq<(Hash, nat)>): Result<seq<Row>>
  {
    if allocations == [] then Ok([])
    else
      var n := |allocations| - 1;
      var rows :- AllocatedRows(s, allocations[..n]);
      var cid, score := allocations[n].0, allocations[n].1;
      :- Need(cid in s.contributions, WrongState);
      var o := s.contributions[cid];
      :- Need(o.stage == Evaluated && o.parent == s.current && o.score == score && score > 0, Evidence);
      Ok(rows + [Row(cid, o.owner, score)])
  }

  function ScoreSum(rows: seq<Row>): nat
  {
    if rows == [] then 0 else ScoreSum(rows[..|rows| - 1]) + rows[|rows| - 1].score
  }

  function MarkAdopted(m: map<Hash, Contribution>, ids: set<Hash>): map<Hash, Contribution>
  {
    map k | k in m :: if k in ids then m[k].(stage := Adopted) else m[k]
  }

  /** The escrow a release is published with. */
  function NewRelease(p: Params, height: nat, sender: Hash, c: Command, leafCount: nat): Escrow
    requires c.PublishRelease?
  {
    Escrow(sender, c.budget, height + (p.rewardMaturity + p.claimWindow), Open,
           Release(c.budget, c.totalScore, c.allocationRoot, height + p.rewardMaturity, leafCount, map[]))
  }

  function AllocatedIds(allocations: seq<(Hash, nat)>): set<Hash>
  {
    if allocations == [] then {} else AllocatedIds(allocations[1..]) + {allocations[0].0}
  }

  /** Everything a publication checks before funds move, in order. */
  function PublishCheck(p: Params, s: State, height: nat, c: Command): Check
    requires c.PublishRelease?
  {
    if c.parent != s.current then Fail(WrongState)
    else if c.bundle !in s.contributions then Fail(WrongState)
    else
      var bundle := s.contributions[c.bundle];
      if !(bundle.stage == Evaluated && bundle.score >= p.minAdoption) then Fail(Evidence)
      else if !(bundle.parent == s.current && bundle.components == c.allocationRoot) then Fail(RootMismatch)
      else
        match AllocatedRows(s, c.allocations)
        case Err(code) => Fail(code)
        case Ok(rows) =>
          if !(rows != [] && Root(p.le, Leaves(rows)) == c.allocationRoot && ScoreSum(rows) == c.totalScore) then
            Fail(RootMismatch)
          else if c.release != ReleaseId(c.parent, c.bundle, c.budget, c.allocationRoot, c.totalScore) then
            Fail(RootMismatch)
          else if ReleaseKey(c.release) in s.escrows then Fail(Duplicate)
          else DeadlineCheck(p, s, height, height + (p.rewardMaturity + p.claimWindow),
                             p.rewardMaturity + p.claimWindow)
  }

  function DoPublishRelease(p: Params, s: State, height: nat, sender: Hash, c: Command): Result<State>
    requires c.PublishRelease? && Canonical(p, c)
  {
    var check := PublishCheck(p, s, height, c);
    :- check;
    var paid :- Pay(s, sender, c.budget);
    Ok(paid.(escrows := paid.escrows[ReleaseKey(c.release) := NewRelease(p, height, sender, c, |c.allocations|)],
             contributions := MarkAdopted(paid.contributions, AllocatedIds(c.allocations) + {c.bundle}),
             current := c.release))
  }

  /** Everything a claim checks before its amount is computed, in order. */
  function ClaimCheck(p: Params, s: State, height: nat, sender: Hash, c: Command): Check
    requires c.ClaimReward?
  {
    var k := ReleaseKey(c.release);
    if !(k in s.escrows && s.escrows[k].detail.Release?) then Fail(WrongState)
    else
      var e := s.escrows[k];
      var r := e.detail;
      if !(r.maturity <= height < e.deadline && e.status == Open) then Fail(WrongState)
      else if c.contribution in r.claims then Fail(Duplicate)
      // A stored release always has rows and a positive total; the source divides and indexes without checking.
      else if !(r.leafCount > 0 && r.total > 0 && |c.siblings| == BitLength(r.leafCount - 1)) then Fail(RootMismatch)
      else Need(Allocation.Check(p.le, Leaf(Row(c.contribution, sender, c.score)), c.siblings, r.root), RootMismatch)
  }

  function DoClaimReward(p: Params, s: State, height: nat, sender: Hash, c: Command): Result<State>
    requires c.ClaimReward?
  {
    var check := ClaimCheck(p, s, height, sender, c);
    :- check;
    var k := ReleaseKey(c.release);
    var e := s.escrows[k];
    PayClaim(s, k, sender, c.contribution, e.detail.budget * c.score / e.detail.total)
  }

  function PayClaim(s: State, k: Key, sender: Hash, contribution: Hash, amount: nat): Result<State>
    requires k in s.escrows && s.escrows[k].detail.Release?
  {
    var e := s.escrows[k];
    :- Need(amount <= e.remaining, Funds);
    var paid :- Credit(s, sender, amount);
    Ok(paid.(escrows := paid.escrows[k := AfterClaim(e, contribution, amount)]))
  }

  /** What a release looks like after paying `amount` for a contribution. */
  function AfterClaim(e: Escrow, contribution: Hash, amount: nat): Escrow
    requires e.detail.Release? && amount <= e.remaining
  {
    e.(remaining := e.remaining - amount, detail := e.detail.(claims := e.detail.claims[contribution := amount]))
  }

  function DoReserveQuota(p: Params, s: State, height: nat, tx: Tx, c: Command): Result<State>
    requires c.ReserveQuota?
  {
    var k := QuotaKey(c.quota);
    :- Need(c.quota == QuotaId(tx.sender, tx.nonce, c.consumer, c.provider, c.units, c.deadline), ResourceId);
    :- Need(k !in s.escrows, Duplicate);
    :- DeadlineCheck(p, s, height, c.deadline, p.maxTaskLifetime);
    :- Need(0 < c.units <= p.maxQuotaUnits, Limit);
    var cost := c.units * p.quotaPrice;
    var paid :- Pay(s, tx.sender, cost);
    var e := Escrow(tx.sender, cost, c.deadline, Reserved, Quota(c.consumer, c.provider, c.units));
    Ok(paid.(escrows := paid.escrows[k := e]))
  }

  /** Everything a consumption checks before money moves, in order. */
  function ConsumeCheck(s: State, height: nat, sender: Hash, c: Command): Check
    requires c.ConsumeQuota?
  {
    var k := QuotaKey(c.quota);
    if !(k in s.escrows && s.escrows[k].detail.Quota?) then Fail(WrongState)
    else
      var e := s.escrows[k];
      if sender != e.detail.provider then Fail(Authority)
      else if !(e.status == Reserved && height < e.deadline) then Fail(WrongState)
      else if !(0 < c.units <= e.detail.units && c.result != ZERO) then Fail(Limit)
      else Need(c.consumerSigned, Signature)
  }

  /** The one command whose fee comes out of the escrow instead of the sender's balance. */
  function DoConsumeQuota(p: Params, s: State, height: nat, sender: Hash, fee: nat, c: Command): Result<State>
    requires c.ConsumeQuota?
  {
    var check := ConsumeCheck(s, height, sender, c);
    :- check;
    PayQuota(s, QuotaKey(c.quota), sender, c.units, c.units * p.quotaPrice, fee)
  }

  function PayQuota(s: State, k: Key, sender: Hash, units: nat, cost: nat, fee: nat): Result<State>
    requires k in s.escrows && s.escrows[k].detail.Quota? && units <= s.escrows[k].detail.units
  {
    var e := s.escrows[k];
    :- Need(cost >= fee && e.remaining >= cost, Funds);
    var paid :- Credit(s, sender, cost - fee);
    Ok(paid.(escrows := paid.escrows[k := AfterConsume(e, units, cost)]))
  }

  /** What a quota looks like after `units` of it were consumed for `cost`. */
  function AfterConsume(e: Escrow, units: nat, cost: nat): Escrow
    requires e.detail.Quota? && units <= e.detail.units && cost <= e.remaining
  {
    var left := e.detail.units - units;
    e.(remaining := e.remaining - cost, detail := e.detail.(units := left),
       status := if left == 0 then Spent else e.status)
  }

  function DoRegisterWork(s: State, commitment: Hash): Result<State>
  {
    var unused := commitment !in s.works && commitment != ZERO;
    :- Need(unused, Duplicate);
    Ok(s.(works := s.works + {commitment}))
  }

  predicate OfTask(c: Command) { c.Transfer? || c.ReserveTask? || c.CancelTask? || c.RecordReceipt? || c.AcceptTask? }
  predicate OfModel(c: Command) { c.Contribute? || c.Evaluate? || c.PublishRelease? || c.ClaimReward? }

  function DoTaskCommand(p: Params, s: State, height: nat, tx: Tx): Result<State>
    requires OfTask(tx.command)
  {
    match tx.command
    case Transfer(recipient, amount) => DoTransfer(s, tx.sender, recipient, amount)
    case ReserveTask(_, _, _, _) => DoReserveTask(p, s, height, tx, tx.command)
    case CancelTask(task) => DoCancelTask(s, tx.sender, task)
    case RecordReceipt(task, output) => DoRecordReceipt(s, height, tx.sender, task, output)
    case AcceptTask(task, output) => DoAcceptTask(s, height, tx.sender, task, output)
  }

  function DoModelCommand(p: Params, s: State, height: nat, tx: Tx): Result<State>
    requires p.Valid() && OfModel(tx.command) && Canonical(p, tx.command)
  {
    match tx.command
    case Contribute(_, _, _, _, _, _, _) => DoContribute(p, s, height, tx.sender, tx.command)
    case Evaluate(_, _, _, _) => DoEvaluate(p, s, tx.sender, tx.command)
    case PublishRelease(_, _, _, _, _, _, _) => DoPublishRelease(p, s, height, tx.sender, tx.command)
    case ClaimReward(_, _, _, _) => DoClaimReward(p, s, height, tx.sender, tx.command)
  }

  function DoQuotaCommand(p: Params, s: State, height: nat, tx: Tx): Result<State>
    requires !OfTask(tx.command) && !OfModel(tx.command)
  {
    match tx.command
    case ReserveQuota(_, _, _, _, _) => DoReserveQuota(p, s, height, tx, tx.command)
    case ConsumeQuota(_, _, _, _) => DoConsumeQuota(p, s, height, tx.sender, FeeOf(p, tx), tx.command)
    case RegisterWork(commitment) => DoRegisterWork(s, commitment)
  }

  /** The command proper, after the envelope checks and the fee. */
  function DoCommand(p: Params, s: State, height: nat, tx: Tx): Result<State>
    requires p.Valid() && Canonical(p, tx.command)
  {
    if OfTask(tx.command) then DoTaskCommand(p, s, height, tx)
    else if OfModel(tx.command) then DoModelCommand(p, s, height, tx)
    else DoQuotaCommand(p, s, height, tx)
  }

  /** Envelope, nonce, expiry, signature and fee checks, in order. */
  function EnvelopeCheck(p: Params, s: State, height: nat, tx: Tx): Check
  {
    if !(Canonical(p, tx.command) && tx.nonce > 0) then Fail(NonCanonical)
    else if tx.network != p.network then Fail(Network)
    else if tx.nonce != Get(s, tx.sender).nonce + 1 then Fail(Nonce)
    else if height > tx.expiry then Fail(Late)
    else if !tx.signed then Fail(Signature)
    else if tx.feeLimit < FeeOf(p, tx) then Fail(Fee)
    else if !tx.command.ConsumeQuota? && Get(s, tx.sender).balance < FeeOf(p, tx) then Fail(Funds)
    else Pass
  }

  /** The state the command runs on: the sender's account exists and the fee has been taken. */
  function Charged(p: Params, s: State, tx: Tx): State
    requires tx.command.ConsumeQuota? || Get(s, tx.sender).balance >= FeeOf(p, tx)
  {
    var a := Get(s, tx.sender);
    Put(s, tx.sender, if tx.command.ConsumeQuota? then a else a.(balance := a.balance - FeeOf(p, tx)))
  }

  function AdvanceNonce(r: Result<State>, tx: Tx): Result<State>
  {
    var done :- r;
    Ok(Put(done, tx.sender, Get(done, tx.sender).(nonce := tx.nonce)))
  }

  /** One transaction. */
  function ApplyTx(p: Params, s: State, height: nat, tx: Tx): Result<State>
    requires p.Valid()
  {
    var check := EnvelopeCheck(p, s, height, tx);
    :- check;
    AdvanceNonce(DoCommand(p, Charged(p, s, tx), height, tx), tx)
  }
}
