/** Each of the twelve commands, and a whole transaction, against the invariants of Solvency. */
module TransactionSafety {
  import opened Allocation
  import opened MapSums
  import opened LedgerState
  import opened Solvency

  /** What may be assumed before a command of block h runs. */
  ghost predicate Ready(p: Params, h: nat, s: State)
  {
    p.Valid() && EscrowsOk(p, s.escrows) && ClearThrough(s.escrows, h) && TotalFunds(s) < U64
  }

  /** Nothing but `spent` has left the books, and every escrow is still in order. */
  ghost predicate Kept(p: Params, h: nat, s: State, t: State, spent: nat)
  {
    && TotalFunds(t) + spent == TotalFunds(s)
    && EscrowsOk(p, t.escrows) && ClearThrough(t.escrows, h)
    && t.issued == s.issued && t.rewards == s.rewards
  }

  /** An error a transaction's own content can cause, as opposed to a broken ledger. */
  predicate Benign(c: Code) { c != Range && c != Conservation }

  lemma {:induction false} TransferKeeps(p: Params, h: nat, s: State, sender: Hash, recipient: Hash, amount: nat)
    requires Ready(p, h, s)
    ensures var r := DoTransfer(s, sender, recipient, amount);
            (r.Ok? ==> Kept(p, h, s, r.value, 0)) && (r.Err? ==> Benign(r.code))
  {
    PayFunds(s, sender, amount);
    var paid := Pay(s, sender, amount);
    if paid.Ok? { CreditFunds(paid.value, recipient, amount); }
  }

  /** Adding a funded object that the sender has just paid for. */
  lemma {:induction false} FundedInsert(p: Params, h: nat, s: State, sender: Hash, n: nat, k: Key, e: Escrow)
    requires Ready(p, h, s) && k !in s.escrows && EntryOk(p, k, e) && e.remaining == n
    requires e.deadline > h && |DueAt(s.escrows, e.deadline)| < p.mandatoryExpiry
    requires Pay(s, sender, n).Ok?
    ensures var paid := Pay(s, sender, n).value; Kept(p, h, s, paid.(escrows := paid.escrows[k := e]), 0)
  {
    PayFunds(s, sender, n);
    var paid := Pay(s, sender, n).value;
    EscrowFunds(paid, k, e);
    AddKeeps(p, h, s.escrows, k, e);
  }

  /** Rewriting one object and crediting what it gave up, less what is spent on a fee. */
  lemma {:induction false} FundedUpdate(p: Params, h: nat, s: State, who: Hash, n: nat, spent: nat, k: Key, e: Escrow)
    requires Ready(p, h, s) && k in s.escrows && EntryOk(p, k, e)
    requires e.deadline == s.escrows[k].deadline && e.remaining + n + spent == s.escrows[k].remaining
    ensures var r := Credit(s, who, n);
            (r.Ok? ==> Kept(p, h, s, r.value.(escrows := r.value.escrows[k := e]), spent)) && r.Ok?
  {
    SumAtLeast(s.escrows, RemainingOf, k);
    EscrowFunds(s, k, e);
    var moved := s.(escrows := s.escrows[k := e]);
    CreditFunds(s, who, n);
    CreditInRange(s, who, n, k);
    var paid := Credit(s, who, n).value;
    EscrowFunds(paid, k, e);
    UpdateKeeps(p, s.escrows, k, e);
  }

  /** A balance and the escrow it is paid from together stay within the total. */
  lemma {:induction false} CreditInRange(s: State, who: Hash, n: nat, k: Key)
    requires TotalFunds(s) < U64 && k in s.escrows && n <= s.escrows[k].remaining
    ensures Credit(s, who, n).Ok?
  {
    SumAtLeast(s.escrows, RemainingOf, k);
    if who in s.accounts { SumAtLeast(s.accounts, BalanceOf, who); }
  }

  lemma {:induction false} ReserveTaskKeeps(p: Params, h: nat, s: State, tx: Tx, c: Command)
    requires Ready(p, h, s) && c.ReserveTask?
    ensures var r := DoReserveTask(p, s, h, tx, c);
            (r.Ok? ==> Kept(p, h, s, r.value, 0)) && (r.Err? ==> Benign(r.code))
  {
    PayFunds(s, tx.sender, c.budget);
    var e := Escrow(tx.sender, c.budget, c.deadline, Reserved, Task(c.provider, ZERO));
    if DoReserveTask(p, s, h, tx, c).Ok? { FundedInsert(p, h, s, tx.sender, c.budget, TaskKey(c.task), e); }
  }

  /** A task paid out in full. */
  lemma {:induction false} TaskUpdate(p: Params, h: nat, s: State, who: Hash, k: Key, e: Escrow)
    requires Ready(p, h, s) && k in s.escrows && k.TaskKey? && e.detail.Task?
    requires e.deadline == s.escrows[k].deadline && e.remaining == 0
    ensures var r := Credit(s, who, s.escrows[k].remaining);
            r.Ok? && Kept(p, h, s, r.value.(escrows := r.value.escrows[k := e]), 0)
  {
    FundedUpdate(p, h, s, who, s.escrows[k].remaining, 0, k, e);
  }

  lemma {:induction false} CancelTaskKeeps(p: Params, h: nat, s: State, sender: Hash, task: Hash)
    requires Ready(p, h, s)
    ensures var r := DoCancelTask(s, sender, task);
            (r.Ok? ==> Kept(p, h, s, r.value, 0)) && (r.Err? ==> Benign(r.code))
  {
    var k := TaskKey(task);
    if k in s.escrows && s.escrows[k].detail.Task? {
      var e := s.escrows[k];
      TaskUpdate(p, h, s, sender, k, e.(remaining := 0, status := Cancelled));
    }
  }

  lemma {:induction false} ReceiptUpdate(p: Params, h: nat, s: State, k: Key, e: Escrow)
    requires Ready(p, h, s) && k in s.escrows && k.TaskKey? && e.detail.Task?
    requires e.deadline == s.escrows[k].deadline && e.remaining == s.escrows[k].remaining
    ensures Kept(p, h, s, s.(escrows := s.escrows[k := e]), 0)
  {
    EscrowFunds(s, k, e);
    UpdateKeeps(p, s.escrows, k, e);
  }

  lemma {:induction false} RecordReceiptKeeps(p: Params, h: nat, s: State, sender: Hash, task: Hash, output: Hash)
    requires Ready(p, h, s)
    ensures var r := DoRecordReceipt(s, h, sender, task, output);
            (r.Ok? ==> Kept(p, h, s, r.value, 0)) && (r.Err? ==> Benign(r.code))
  {
    var k := TaskKey(task);
    if k in s.escrows && s.escrows[k].detail.Task? {
      var e := s.escrows[k];
      ReceiptUpdate(p, h, s, k, e.(status := Receipt, detail := e.detail.(output := output)));
    }
  }

  lemma {:induction false} AcceptTaskKeeps(p: Params, h: nat, s: State, sender: Hash, task: Hash, output: Hash)
    requires Ready(p, h, s)
    ensures var r := DoAcceptTask(s, h, sender, task, output);
            (r.Ok? ==> Kept(p, h, s, r.value, 0)) && (r.Err? ==> Benign(r.code))
  {
    var k := TaskKey(task);
    if k in s.escrows && s.escrows[k].detail.Task? {
      var e := s.escrows[k];
      TaskUpdate(p, h, s, e.detail.provider, k, e.(remaining := 0, status := Settled));
    }
  }

  lemma {:induction false} RowsFacts(s: State, allocations: seq<(Hash, nat)>)
    requires AllocatedRows(s, allocations).Ok?
    ensures var rows := AllocatedRows(s, allocations).value;
            && |rows| == |allocations|
            && (forall i :: 0 <= i < |rows| ==> rows[i].contribution == allocations[i].0)
            && (rows != [] ==> ScoreSum(rows) > 0)
  {
    if allocations != [] {
      var n := |allocations| - 1;
      RowsFacts(s, allocations[..n]);
      var rows := AllocatedRows(s, allocations).value;
      assert rows[..n] == AllocatedRows(s, allocations[..n]).value;
    }
  }

  lemma {:induction false} PaidNothing(rows: seq<Row>, n: nat)
    requires n <= |rows|
    ensures Paid(rows, map[], n) == 0
  {
    if n > 0 { PaidNothing(rows, n - 1); }
  }

  lemma {:induction false} RowsDistinct(p: Params, s: State, c: Command)
    requires c.PublishRelease? && Canonical(p, c) && AllocatedRows(s, c.allocations).Ok?
    ensures Distinct(AllocatedRows(s, c.allocations).value)
    ensures |AllocatedRows(s, c.allocations).value| == |c.allocations|
  {
    RowsFacts(s, c.allocations);
  }

  /** The published escrow is committed to the rows its root was computed from. */
  lemma {:induction false} NewReleaseOk(p: Params, h: nat, s: State, sender: Hash, c: Command)
    requires c.PublishRelease? && Canonical(p, c) && PublishCheck(p, s, h, c).Pass?
    ensures EntryOk(p, ReleaseKey(c.release), NewRelease(p, h, sender, c, |c.allocations|))
  {
    var rows := AllocatedRows(s, c.allocations).value;
    RowsFacts(s, c.allocations);
    RowsDistinct(p, s, c);
    PaidNothing(rows, |rows|);
    assert Committed(p.le, NewRelease(p, h, sender, c, |c.allocations|), rows);
  }

  lemma {:induction false} PublishCheckFacts(p: Params, h: nat, s: State, c: Command)
    requires c.PublishRelease?
    ensures PublishCheck(p, s, h, c).Pass? ==>
              && ReleaseKey(c.release) !in s.escrows && p.rewardMaturity + p.claimWindow > 0
              && |DueAt(s.escrows, h + (p.rewardMaturity + p.claimWindow))| < p.mandatoryExpiry
    ensures PublishCheck(p, s, h, c).Fail? ==> Benign(PublishCheck(p, s, h, c).code)
  {
    RowsErrors(s, c.allocations);
  }

  /** Everything that funding a new release relies on. */
  ghost predicate Publishable(p: Params, h: nat, s: State, k: Key, e: Escrow)
  {
    k !in s.escrows && EntryOk(p, k, e) && e.deadline > h && |DueAt(s.escrows, e.deadline)| < p.mandatoryExpiry
  }

  lemma {:induction false} PublishableNow(p: Params, h: nat, s: State, sender: Hash, c: Command)
    requires c.PublishRelease? && Canonical(p, c) && PublishCheck(p, s, h, c).Pass?
    ensures Publishable(p, h, s, ReleaseKey(c.release), NewRelease(p, h, sender, c, |c.allocations|))
  {
    PublishCheckFacts(p, h, s, c);
    NewReleaseOk(p, h, s, sender, c);
  }

  lemma {:induction false} PublishableKeeps(p: Params, h: nat, s: State, sender: Hash, k: Key, e: Escrow)
    requires Ready(p, h, s) && Publishable(p, h, s, k, e) && Pay(s, sender, e.remaining).Ok?
    ensures var t := Pay(s, sender, e.remaining).value; Kept(p, h, s, t.(escrows := t.escrows[k := e]), 0)
  {
    FundedInsert(p, h, s, sender, e.remaining, k, e);
  }

  lemma {:induction false} NewReleaseKeeps(p: Params, h: nat, s: State, sender: Hash, c: Command)
    requires Ready(p, h, s) && c.PublishRelease? && Canonical(p, c)
    requires PublishCheck(p, s, h, c).Pass? && Pay(s, sender, c.budget).Ok?
    ensures var t := Pay(s, sender, c.budget).value;
            Kept(p, h, s,
                 t.(escrows := t.escrows[ReleaseKey(c.release) := NewRelease(p, h, sender, c, |c.allocations|)]), 0)
  {
    PublishableNow(p, h, s, sender, c);
    PublishableKeeps(p, h, s, sender, ReleaseKey(c.release), NewRelease(p, h, sender, c, |c.allocations|));
  }

  /** Publishing a release funds it in full against the rows its root commits to. */
  lemma {:induction false} PublishReleaseKeeps(p: Params, h: nat, s: State, sender: Hash, c: Command)
    requires Ready(p, h, s) && c.PublishRelease? && Canonical(p, c)
    ensures var r := DoPublishRelease(p, s, h, sender, c);
            (r.Ok? ==> Kept(p, h, s, r.value, 0)) && (r.Err? ==> Benign(r.code))
  {
    PublishCheckFacts(p, h, s, c);
    PayFunds(s, sender, c.budget);
    if PublishCheck(p, s, h, c).Pass? && Pay(s, sender, c.budget).Ok? { NewReleaseKeeps(p, h, s, sender, c); }
  }

  lemma {:induction false} RowsErrors(s: State, allocations: seq<(Hash, nat)>)
    ensures AllocatedRows(s, allocations).Err? ==> Benign(AllocatedRows(s, allocations).code)
  {
    if allocations != [] { RowsErrors(s, allocations[..|allocations| - 1]); }
  }

  /** The share of an accepted claim is covered, and the release stays committed after paying it. */
  lemma {:induction false} ClaimCovered(le: Order, e: Escrow, row: Row, siblings: seq<Hash>, amount: nat)
    requires e.detail.Release? && ReleaseOk(le, e) && e.status == Open && e.detail.leafCount > 0 && e.detail.total > 0
    requires row.contribution !in e.detail.claims && |siblings| == BitLength(e.detail.leafCount - 1)
    requires Allocation.Check(le, Leaf(row), siblings, e.detail.root)
    requires amount == e.detail.budget * row.score / e.detail.total
    ensures amount <= e.remaining && ReleaseOk(le, AfterClaim(e, row.contribution, amount))
  {
    var rows := ClaimedRow(le, e, row, siblings);
    ClaimKeeps(le, e, rows, row, amount);
  }

  lemma {:induction false} ClaimedRow(le: Order, e: Escrow, row: Row, siblings: seq<Hash>) returns (rows: seq<Row>)
    requires e.detail.Release? && ReleaseOk(le, e) && e.detail.leafCount > 0
    requires |siblings| == BitLength(e.detail.leafCount - 1)
    requires Allocation.Check(le, Leaf(row), siblings, e.detail.root)
    ensures Committed(le, e, rows) && row in rows
  {
    rows :| Committed(le, e, rows);
    CheckSound(le, row, siblings, rows);
  }

  /** A committed payment out of a release keeps the books. */
  lemma {:induction false} PayClaimKeeps(p: Params, h: nat, s: State, k: Key, sender: Hash, contribution: Hash,
                                         amount: nat)
    requires Ready(p, h, s) && k in s.escrows && k.ReleaseKey? && s.escrows[k].detail.Release?
    requires amount <= s.escrows[k].remaining && ReleaseOk(p.le, AfterClaim(s.escrows[k], contribution, amount))
    ensures var r := PayClaim(s, k, sender, contribution, amount); r.Ok? && Kept(p, h, s, r.value, 0)
  {
    FundedUpdate(p, h, s, sender, amount, 0, k, AfterClaim(s.escrows[k], contribution, amount));
  }

  lemma {:induction false} ReleaseIsOk(p: Params, h: nat, s: State, k: Key)
    requires Ready(p, h, s) && k.ReleaseKey? && k in s.escrows && s.escrows[k].detail.Release?
    ensures ReleaseOk(p.le, s.escrows[k])
  {
    assert EntryOk(p, k, s.escrows[k]);
  }

  lemma {:induction false} AcceptedClaimKeeps(p: Params, h: nat, s: State, sender: Hash, c: Command, amount: nat)
    requires Ready(p, h, s) && c.ClaimReward? && ClaimCheck(p, s, h, sender, c).Pass?
    requires var r := s.escrows[ReleaseKey(c.release)].detail; amount == r.budget * c.score / r.total
    ensures var r := PayClaim(s, ReleaseKey(c.release), sender, c.contribution, amount);
            r.Ok? && Kept(p, h, s, r.value, 0)
  {
    var e := s.escrows[ReleaseKey(c.release)];
    ReleaseIsOk(p, h, s, ReleaseKey(c.release));
    ClaimCovered(p.le, e, Row(c.contribution, sender, c.score), c.siblings, amount);
    PayClaimKeeps(p, h, s, ReleaseKey(c.release), sender, c.contribution, amount);
  }

  /** A claim pays a committed row, and the release can always cover it. */
  lemma {:induction false} ClaimRewardKeeps(p: Params, h: nat, s: State, sender: Hash, c: Command)
    requires Ready(p, h, s) && c.ClaimReward?
    ensures var r := DoClaimReward(p, s, h, sender, c);
            (r.Ok? ==> Kept(p, h, s, r.value, 0)) && (r.Err? ==> Benign(r.code) && r.code != Funds)
  {
    if ClaimCheck(p, s, h, sender, c).Pass? {
      var r := s.escrows[ReleaseKey(c.release)].detail;
      AcceptedClaimKeeps(p, h, s, sender, c, r.budget * c.score / r.total);
    }
  }

  lemma {:induction false} ReserveQuotaKeeps(p: Params, h: nat, s: State, tx: Tx, c: Command)
    requires Ready(p, h, s) && c.ReserveQuota?
    ensures var r := DoReserveQuota(p, s, h, tx, c);
            (r.Ok? ==> Kept(p, h, s, r.value, 0)) && (r.Err? ==> Benign(r.code))
  {
    var cost := c.units * p.quotaPrice;
    PayFunds(s, tx.sender, cost);
    var e := Escrow(tx.sender, cost, c.deadline, Reserved, Quota(c.consumer, c.provider, c.units));
    if DoReserveQuota(p, s, h, tx, c).Ok? { FundedInsert(p, h, s, tx.sender, cost, QuotaKey(c.quota), e); }
  }

  lemma {:induction false} PayQuotaKeeps(p: Params, h: nat, s: State, k: Key, sender: Hash, units: nat, cost: nat,
                                         fee: nat)
    requires Ready(p, h, s) && k in s.escrows && k.QuotaKey? && s.escrows[k].detail.Quota?
    requires units <= s.escrows[k].detail.units
    ensures var r := PayQuota(s, k, sender, units, cost, fee);
            (r.Ok? ==> Kept(p, h, s, r.value, fee)) && (r.Err? ==> Benign(r.code))
  {
    if cost >= fee && s.escrows[k].remaining >= cost {
      FundedUpdate(p, h, s, sender, cost - fee, fee, k, AfterConsume(s.escrows[k], units, cost));
    }
  }

  /** Consuming quota pays its own fee out of the escrow. */
  lemma {:induction false} ConsumeQuotaKeeps(p: Params, h: nat, s: State, sender: Hash, fee: nat, c: Command)
    requires Ready(p, h, s) && c.ConsumeQuota?
    ensures var r := DoConsumeQuota(p, s, h, sender, fee, c);
            (r.Ok? ==> Kept(p, h, s, r.value, fee)) && (r.Err? ==> Benign(r.code))
  {
    if ConsumeCheck(s, h, sender, c).Pass? { PayQuotaKeeps(p, h, s, QuotaKey(c.quota), sender, c.units,
                                                           c.units * p.quotaPrice, fee); }
  }

  lemma {:induction false} ContributeKeeps(p: Params, h: nat, s: State, sender: Hash, c: Command)
    requires Ready(p, h, s) && c.Contribute?
    ensures var r := DoContribute(p, s, h, sender, c);
            (r.Ok? ==> Kept(p, h, s, r.value, 0)) && (r.Err? ==> Benign(r.code))
  {
  }

  lemma {:induction false} EvaluateKeeps(p: Params, h: nat, s: State, sender: Hash, c: Command)
    requires Ready(p, h, s) && c.Evaluate?
    ensures var r := DoEvaluate(p, s, sender, c); (r.Ok? ==> Kept(p, h, s, r.value, 0)) && (r.Err? ==> Benign(r.code))
  {
  }

  lemma {:induction false} RegisterWorkKeeps(p: Params, h: nat, s: State, commitment: Hash)
    requires Ready(p, h, s)
    ensures var r := DoRegisterWork(s, commitment); (r.Ok? ==> Kept(p, h, s, r.value, 0)) && (r.Err? ==> Benign(r.code))
  {
  }

  lemma {:induction false} TaskCommandKeeps(p: Params, h: nat, s: State, tx: Tx)
    requires Ready(p, h, s) && OfTask(tx.command)
    ensures var r := DoTaskCommand(p, s, h, tx); (r.Ok? ==> Kept(p, h, s, r.value, 0)) && (r.Err? ==> Benign(r.code))
  {
    match tx.command
    case Transfer(recipient, amount) => TransferKeeps(p, h, s, tx.sender, recipient, amount);
    case ReserveTask(_, _, _, _) => ReserveTaskKeeps(p, h, s, tx, tx.command);
    case CancelTask(task) => CancelTaskKeeps(p, h, s, tx.sender, task);
    case RecordReceipt(task, output) => RecordReceiptKeeps(p, h, s, tx.sender, task, output);
    case AcceptTask(task, output) => AcceptTaskKeeps(p, h, s, tx.sender, task, output);
  }

  lemma {:induction false} ModelCommandKeeps(p: Params, h: nat, s: State, tx: Tx)
    requires Ready(p, h, s) && OfModel(tx.command) && Canonical(p, tx.command)
    ensures var r := DoModelCommand(p, s, h, tx);
            && (r.Ok? ==> Kept(p, h, s, r.value, 0))
            && (r.Err? ==> Benign(r.code) && (tx.command.ClaimReward? ==> r.code != Funds))
  {
    match tx.command
    case Contribute(_, _, _, _, _, _, _) => ContributeKeeps(p, h, s, tx.sender, tx.command);
    case Evaluate(_, _, _, _) => EvaluateKeeps(p, h, s, tx.sender, tx.command);
    case PublishRelease(_, _, _, _, _, _, _) => PublishReleaseKeeps(p, h, s, tx.sender, tx.command);
    case ClaimReward(_, _, _, _) => ClaimRewardKeeps(p, h, s, tx.sender, tx.command);
  }

  lemma {:induction false} QuotaCommandKeeps(p: Params, h: nat, s: State, tx: Tx)
    requires Ready(p, h, s) && !OfTask(tx.command) && !OfModel(tx.command)
    ensures var r := DoQuotaCommand(p, s, h, tx);
            && (r.Ok? ==> Kept(p, h, s, r.value, if tx.command.ConsumeQuota? then FeeOf(p, tx) else 0))
            && (r.Err? ==> Benign(r.code))
  {
    match tx.command
    case ReserveQuota(_, _, _, _, _) => ReserveQuotaKeeps(p, h, s, tx, tx.command);
    case ConsumeQuota(_, _, _, _) => ConsumeQuotaKeeps(p, h, s, tx.sender, FeeOf(p, tx), tx.command);
    case RegisterWork(commitment) => RegisterWorkKeeps(p, h, s, commitment);
  }

  /** Every command conserves funds, keeps the escrows in order, and never leaves the range of a balance. */
  lemma {:induction false} CommandKeeps(p: Params, h: nat, s: State, tx: Tx)
    requires Ready(p, h, s) && Canonical(p, tx.command)
    ensures var r := DoCommand(p, s, h, tx);
            && (r.Ok? ==> Kept(p, h, s, r.value, if tx.command.ConsumeQuota? then FeeOf(p, tx) else 0))
            && (r.Err? ==> Benign(r.code) && (tx.command.ClaimReward? ==> r.code != Funds))
  {
    if OfTask(tx.command) { TaskCommandKeeps(p, h, s, tx); }
    else if OfModel(tx.command) { ModelCommandKeeps(p, h, s, tx); }
    else { QuotaCommandKeeps(p, h, s, tx); }
  }

  lemma {:induction false} NonceKeeps(p: Params, h: nat, s: State, r: Result<State>, tx: Tx, spent: nat)
    requires r.Ok? ==> Kept(p, h, s, r.value, spent)
    ensures var n := AdvanceNonce(r, tx);
            (n.Ok? ==> Kept(p, h, s, n.value, spent)) && (n.Err? ==> r.Err? && n.code == r.code)
  {
    if r.Ok? { PutFunds(r.value, tx.sender, Get(r.value, tx.sender).(nonce := tx.nonce)); }
  }

  lemma {:induction false} ChargedFunds(p: Params, h: nat, s: State, tx: Tx)
    requires Ready(p, h, s) && (tx.command.ConsumeQuota? || Get(s, tx.sender).balance >= FeeOf(p, tx))
    ensures Ready(p, h, Charged(p, s, tx))
    ensures Kept(p, h, s, Charged(p, s, tx), if tx.command.ConsumeQuota? then 0 else FeeOf(p, tx))
  {
    var a := Get(s, tx.sender);
    PutFunds(s, tx.sender, if tx.command.ConsumeQuota? then a else a.(balance := a.balance - FeeOf(p, tx)));
  }

  /** A transaction takes exactly its fee out of the books, whichever pocket pays it. */
  lemma {:induction false} TransactionKeeps(p: Params, h: nat, s: State, tx: Tx)
    requires Ready(p, h, s)
    ensures var r := ApplyTx(p, s, h, tx);
            (r.Ok? ==> Kept(p, h, s, r.value, FeeOf(p, tx))) && (r.Err? ==> Benign(r.code))
  {
    if EnvelopeCheck(p, s, h, tx).Pass? {
      ChargedFunds(p, h, s, tx);
      CommandKeeps(p, h, Charged(p, s, tx), tx);
      NonceKeeps(p, h, Charged(p, s, tx), DoCommand(p, Charged(p, s, tx), h, tx), tx,
                 if tx.command.ConsumeQuota? then FeeOf(p, tx) else 0);
    }
  }
}
