/**
 Who pays and who is paid: the exact effect of every command on what each account holds.
 */
module Movements {
  import opened Allocation
  import opened MapSums
  import opened LedgerState

  function HeldFor(a: Hash): Escrow -> nat { (e: Escrow) => if e.owner == a then e.remaining else 0 }
  function OwedTo(a: Hash): Pending -> nat { (v: Pending) => if v.owner == a then v.amount else 0 }

  /** Everything an account can still get: its balance, its funded objects and its pending rewards. */
  ghost function Holdings(s: State, a: Hash): nat
  {
    Get(s, a).balance + Sum(s.escrows, HeldFor(a)) + Sum(s.rewards, OwedTo(a))
  }

  datatype Move = Move(payer: Hash, payee: Hash, amount: nat)

  /** The money a command moves from one account's holdings to another's. */
  function MoveOf(p: Params, s: State, tx: Tx): Move
  {
    var none := Move(tx.sender, tx.sender, 0);
    match tx.command
    case Transfer(recipient, amount) => Move(tx.sender, recipient, amount)
    case AcceptTask(task, _) =>
      var k := TaskKey(task);
      if k in s.escrows && s.escrows[k].detail.Task?
      then Move(tx.sender, s.escrows[k].detail.provider, s.escrows[k].remaining) else none
    case ClaimReward(release, _, score, _) =>
      var k := ReleaseKey(release);
      if k in s.escrows && s.escrows[k].detail.Release? && s.escrows[k].detail.total > 0
      then Move(s.escrows[k].owner, tx.sender, s.escrows[k].detail.budget * score / s.escrows[k].detail.total) else none
    case ConsumeQuota(quota, units, _, _) =>
      var k := QuotaKey(quota);
      if k in s.escrows then Move(s.escrows[k].owner, tx.sender, units * p.quotaPrice) else none
    case _ => none
  }

  function If(c: bool, n: nat): nat { if c then n else 0 }

  /** What account a holds afterwards, to the unit. */
  ghost predicate Moved(s: State, t: State, m: Move, a: Hash, feePayer: Hash, fee: nat)
  {
    Holdings(t, a) + If(a == m.payer, m.amount) + If(a == feePayer, fee) == Holdings(s, a) + If(a == m.payee, m.amount)
  }

  // ---------- single writes ----------

  lemma {:induction false} BalanceHolds(s: State, who: Hash, acct: Account, a: Hash)
    ensures Holdings(Put(s, who, acct), a) + If(a == who, Get(s, who).balance) == Holdings(s, a) + If(a == who,
        acct.balance)
  {
  }

  lemma {:induction false} EscrowHolds(s: State, k: Key, e: Escrow, a: Hash)
    ensures Holdings(s.(escrows := s.escrows[k := e]), a)
            + (if k in s.escrows then If(a == s.escrows[k].owner, s.escrows[k].remaining) else 0)
            == Holdings(s, a) + If(a == e.owner, e.remaining)
  {
    SumSet(s.escrows, HeldFor(a), k, e);
  }

  /** Funding a new object of one's own changes nobody's holdings. */
  lemma {:induction false} OpenHolds(s: State, who: Hash, n: nat, k: Key, e: Escrow, a: Hash)
    requires Pay(s, who, n).Ok? && k !in s.escrows && e.owner == who && e.remaining == n
    ensures var t := Pay(s, who, n).value; Holdings(t.(escrows := t.escrows[k := e]), a) == Holdings(s, a)
  {
    var t := Pay(s, who, n).value;
    BalanceHolds(s, who, Get(s, who).(balance := Get(s, who).balance - n), a);
    EscrowHolds(t, k, e, a);
  }

  /** Paying out of an object: its owner loses what it gives up, the payee gains what is credited. */
  lemma {:induction false} SettleHolds(s: State, k: Key, e: Escrow, amount: nat, to: Hash, credit: nat, a: Hash)
    requires k in s.escrows && e.owner == s.escrows[k].owner && e.remaining + amount == s.escrows[k].remaining
    requires Credit(s, to, credit).Ok?
    ensures var t := Credit(s, to, credit).value;
            Holdings(t.(escrows := t.escrows[k := e]), a) + If(a == e.owner, amount) == Holdings(s, a) + If(a == to,
                credit)
  {
    var t := Credit(s, to, credit).value;
    BalanceHolds(s, to, Get(s, to).(balance := Get(s, to).balance + credit), a);
    EscrowHolds(t, k, e, a);
  }

  // ---------- commands ----------

  lemma {:induction false} TransferMoves(s: State, sender: Hash, recipient: Hash, amount: nat, a: Hash)
    requires DoTransfer(s, sender, recipient, amount).Ok?
    ensures Moved(s, DoTransfer(s, sender, recipient, amount).value, Move(sender, recipient, amount), a, sender, 0)
  {
    var t := Pay(s, sender, amount).value;
    BalanceHolds(s, sender, Get(s, sender).(balance := Get(s, sender).balance - amount), a);
    BalanceHolds(t, recipient, Get(t, recipient).(balance := Get(t, recipient).balance + amount), a);
  }

  lemma {:induction false} TaskMoves(p: Params, h: nat, s: State, tx: Tx, a: Hash)
    requires OfTask(tx.command) && DoTaskCommand(p, s, h, tx).Ok?
    ensures Moved(s, DoTaskCommand(p, s, h, tx).value, MoveOf(p, s, tx), a, tx.sender, 0)
  {
    match tx.command
    case Transfer(recipient, amount) => TransferMoves(s, tx.sender, recipient, amount, a);
    case ReserveTask(_, _, _, _) => ReserveMoves(p, h, s, tx, tx.command, a);
    case CancelTask(task) => CancelMoves(s, tx.sender, task, a);
    case RecordReceipt(task, output) => ReceiptMoves(s, h, tx.sender, task, output, a);
    case AcceptTask(task, output) => AcceptMoves(s, h, tx.sender, task, output, a);
  }

  lemma {:induction false} ReserveMoves(p: Params, h: nat, s: State, tx: Tx, c: Command, a: Hash)
    requires c.ReserveTask? && DoReserveTask(p, s, h, tx, c).Ok?
    ensures Holdings(DoReserveTask(p, s, h, tx, c).value, a) == Holdings(s, a)
  {
    OpenHolds(s, tx.sender, c.budget, TaskKey(c.task),
              Escrow(tx.sender, c.budget, c.deadline, Reserved, Task(c.provider, ZERO)), a);
  }

  lemma {:induction false} CancelMoves(s: State, sender: Hash, task: Hash, a: Hash)
    requires DoCancelTask(s, sender, task).Ok?
    ensures Holdings(DoCancelTask(s, sender, task).value, a) == Holdings(s, a)
  {
    var e := s.escrows[TaskKey(task)];
    SettleHolds(s, TaskKey(task), e.(remaining := 0, status := Cancelled), e.remaining, sender, e.remaining, a);
  }

  lemma {:induction false} ReceiptMoves(s: State, h: nat, sender: Hash, task: Hash, output: Hash, a: Hash)
    requires DoRecordReceipt(s, h, sender, task, output).Ok?
    ensures Holdings(DoRecordReceipt(s, h, sender, task, output).value, a) == Holdings(s, a)
  {
    var e := s.escrows[TaskKey(task)];
    EscrowHolds(s, TaskKey(task), e.(status := Receipt, detail := e.detail.(output := output)), a);
  }

  lemma {:induction false} AcceptMoves(s: State, h: nat, sender: Hash, task: Hash, output: Hash, a: Hash)
    requires DoAcceptTask(s, h, sender, task, output).Ok?
    ensures var e := s.escrows[TaskKey(task)];
            Moved(s, DoAcceptTask(s, h, sender, task, output).value, Move(sender, e.detail.provider, e.remaining), a,
                  sender, 0)
  {
    var e := s.escrows[TaskKey(task)];
    SettleHolds(s, TaskKey(task), e.(remaining := 0, status := Settled), e.remaining, e.detail.provider, e.remaining,
                a);
  }

  lemma {:induction false} PublishMoves(p: Params, h: nat, s: State, sender: Hash, c: Command, a: Hash)
    requires c.PublishRelease? && Canonical(p, c) && DoPublishRelease(p, s, h, sender, c).Ok?
    ensures Holdings(DoPublishRelease(p, s, h, sender, c).value, a) == Holdings(s, a)
  {
    OpenHolds(s, sender, c.budget, ReleaseKey(c.release), NewRelease(p, h, sender, c, |c.allocations|), a);
  }

  lemma {:induction false} PayClaimMoves(s: State, k: Key, sender: Hash, contribution: Hash, amount: nat, a: Hash)
    requires k in s.escrows && s.escrows[k].detail.Release? && PayClaim(s, k, sender, contribution, amount).Ok?
    ensures Moved(s, PayClaim(s, k, sender, contribution, amount).value, Move(s.escrows[k].owner, sender, amount), a,
                  sender, 0)
  {
    SettleHolds(s, k, AfterClaim(s.escrows[k], contribution, amount), amount, sender, amount, a);
  }

  lemma {:induction false} ClaimMoves(p: Params, h: nat, s: State, tx: Tx, a: Hash)
    requires tx.command.ClaimReward? && DoClaimReward(p, s, h, tx.sender, tx.command).Ok?
    ensures Moved(s, DoClaimReward(p, s, h, tx.sender, tx.command).value, MoveOf(p, s, tx), a, tx.sender, 0)
  {
    var k := ReleaseKey(tx.command.release);
    var r := s.escrows[k].detail;
    PayClaimMoves(s, k, tx.sender, tx.command.contribution, r.budget * tx.command.score / r.total, a);
  }

  lemma {:induction false} RecordMoves(p: Params, h: nat, s: State, sender: Hash, c: Command, a: Hash)
    requires p.Valid()
    requires || (c.Contribute? && DoContribute(p, s, h, sender, c).Ok?)
             || (c.Evaluate? && DoEvaluate(p, s, sender, c).Ok?)
    ensures var t := if c.Contribute? then DoContribute(p, s, h, sender, c).value
                     else DoEvaluate(p, s, sender, c).value;
            Holdings(t, a) == Holdings(s, a)
  {
  }

  lemma {:induction false} ModelMoves(p: Params, h: nat, s: State, tx: Tx, a: Hash)
    requires p.Valid() && OfModel(tx.command) && Canonical(p, tx.command) && DoModelCommand(p, s, h, tx).Ok?
    ensures Moved(s, DoModelCommand(p, s, h, tx).value, MoveOf(p, s, tx), a, tx.sender, 0)
  {
    match tx.command
    case Contribute(_, _, _, _, _, _, _) => RecordMoves(p, h, s, tx.sender, tx.command, a);
    case Evaluate(_, _, _, _) => RecordMoves(p, h, s, tx.sender, tx.command, a);
    case PublishRelease(_, _, _, _, _, _, _) => PublishMoves(p, h, s, tx.sender, tx.command, a);
    case ClaimReward(_, _, _, _) => ClaimMoves(p, h, s, tx, a);
  }

  lemma {:induction false} PayQuotaMoves(s: State, k: Key, sender: Hash, units: nat, cost: nat, fee: nat, a: Hash)
    requires k in s.escrows && s.escrows[k].detail.Quota? && units <= s.escrows[k].detail.units
    requires PayQuota(s, k, sender, units, cost, fee).Ok?
    ensures Moved(s, PayQuota(s, k, sender, units, cost, fee).value, Move(s.escrows[k].owner, sender, cost), a, sender,
                  fee)
  {
    SettleHolds(s, k, AfterConsume(s.escrows[k], units, cost), cost, sender, cost - fee, a);
  }

  lemma {:induction false} ConsumeMoves(p: Params, h: nat, s: State, tx: Tx, a: Hash)
    requires tx.command.ConsumeQuota? && DoConsumeQuota(p, s, h, tx.sender, FeeOf(p, tx), tx.command).Ok?
    ensures Moved(s, DoConsumeQuota(p, s, h, tx.sender, FeeOf(p, tx), tx.command).value, MoveOf(p, s, tx), a, tx.sender,
                  FeeOf(p, tx))
  {
    PayQuotaMoves(s, QuotaKey(tx.command.quota), tx.sender, tx.command.units, tx.command.units * p.quotaPrice,
                  FeeOf(p, tx), a);
  }

  lemma {:induction false} QuotaMoves(p: Params, h: nat, s: State, tx: Tx, a: Hash)
    requires !OfTask(tx.command) && !OfModel(tx.command) && DoQuotaCommand(p, s, h, tx).Ok?
    ensures Moved(s, DoQuotaCommand(p, s, h, tx).value, MoveOf(p, s, tx), a, tx.sender,
                  If(tx.command.ConsumeQuota?, FeeOf(p, tx)))
  {
    match tx.command
    case ReserveQuota(quota, consumer, provider, units, deadline) =>
      var cost := units * p.quotaPrice;
      OpenHolds(s, tx.sender, cost, QuotaKey(quota),
                Escrow(tx.sender, cost, deadline, Reserved, Quota(consumer, provider, units)), a);
    case ConsumeQuota(_, _, _, _) => ConsumeMoves(p, h, s, tx, a);
    case RegisterWork(_) =>
  }

  lemma {:induction false} CommandMoves(p: Params, h: nat, s: State, tx: Tx, a: Hash)
    requires p.Valid() && Canonical(p, tx.command) && DoCommand(p, s, h, tx).Ok?
    ensures Moved(s, DoCommand(p, s, h, tx).value, MoveOf(p, s, tx), a, tx.sender,
                  If(tx.command.ConsumeQuota?, FeeOf(p, tx)))
  {
    if OfTask(tx.command) { TaskMoves(p, h, s, tx, a); }
    else if OfModel(tx.command) { ModelMoves(p, h, s, tx, a); }
    else { QuotaMoves(p, h, s, tx, a); }
  }

  /**
   An applied transaction takes its fee from the sender's holdings, moves one amount from one payer
   to one payee, and leaves every other account exactly as it was.
   */
  lemma {:induction false} TransactionMoves(p: Params, h: nat, s: State, tx: Tx, a: Hash)
    requires p.Valid() && ApplyTx(p, s, h, tx).Ok?
    ensures Moved(s, ApplyTx(p, s, h, tx).value, MoveOf(p, s, tx), a, tx.sender, FeeOf(p, tx))
  {
    ChargedHolds(p, s, tx, a);
    CommandMoves(p, h, Charged(p, s, tx), tx, a);
    NonceHolds(DoCommand(p, Charged(p, s, tx), h, tx).value, tx, a);
  }

  lemma {:induction false} ChargedHolds(p: Params, s: State, tx: Tx, a: Hash)
    requires tx.command.ConsumeQuota? || Get(s, tx.sender).balance >= FeeOf(p, tx)
    ensures Holdings(Charged(p, s, tx), a) + If(a == tx.sender && !tx.command.ConsumeQuota?, FeeOf(p, tx))
            == Holdings(s, a)
    ensures MoveOf(p, Charged(p, s, tx), tx) == MoveOf(p, s, tx)
  {
    var acct := Get(s, tx.sender);
    BalanceHolds(s, tx.sender, if tx.command.ConsumeQuota? then acct else acct.(balance := acct.balance - FeeOf(p, tx)),
                 a);
  }

  lemma {:induction false} NonceHolds(s: State, tx: Tx, a: Hash)
    ensures Holdings(Put(s, tx.sender, Get(s, tx.sender).(nonce := tx.nonce)), a) == Holdings(s, a)
  {
    BalanceHolds(s, tx.sender, Get(s, tx.sender).(nonce := tx.nonce), a);
  }

  /** Nobody but the sender pays, except the owner of a release or of a quota the consumer signed for. */
  lemma {:induction false} OnlySenderPays(p: Params, h: nat, s: State, tx: Tx, a: Hash)
    requires p.Valid() && ApplyTx(p, s, h, tx).Ok? && a != tx.sender
    requires Holdings(ApplyTx(p, s, h, tx).value, a) < Holdings(s, a)
    ensures || (tx.command.ClaimReward? && ReleaseKey(tx.command.release) in s.escrows
                && s.escrows[ReleaseKey(tx.command.release)].owner == a)
            || (tx.command.ConsumeQuota? && tx.command.consumerSigned && QuotaKey(tx.command.quota) in s.escrows
                && s.escrows[QuotaKey(tx.command.quota)].owner == a)
  {
    TransactionMoves(p, h, s, tx, a);
  }

  // ---------- nonces ----------

  lemma {:induction false} CommandNonces(p: Params, h: nat, s: State, tx: Tx, a: Hash)
    requires p.Valid() && Canonical(p, tx.command) && DoCommand(p, s, h, tx).Ok?
    ensures Get(DoCommand(p, s, h, tx).value, a).nonce == Get(s, a).nonce
  {
    if OfTask(tx.command) { TaskNonces(p, h, s, tx, a); }
    else if OfModel(tx.command) { ModelNonces(p, h, s, tx, a); }
    else { QuotaNonces(p, h, s, tx, a); }
  }

  lemma {:induction false} TaskNonces(p: Params, h: nat, s: State, tx: Tx, a: Hash)
    requires OfTask(tx.command) && DoTaskCommand(p, s, h, tx).Ok?
    ensures Get(DoTaskCommand(p, s, h, tx).value, a).nonce == Get(s, a).nonce
  {
  }

  lemma {:induction false} ModelNonces(p: Params, h: nat, s: State, tx: Tx, a: Hash)
    requires p.Valid() && OfModel(tx.command) && Canonical(p, tx.command) && DoModelCommand(p, s, h, tx).Ok?
    ensures Get(DoModelCommand(p, s, h, tx).value, a).nonce == Get(s, a).nonce
  {
  }

  lemma {:induction false} QuotaNonces(p: Params, h: nat, s: State, tx: Tx, a: Hash)
    requires !OfTask(tx.command) && !OfModel(tx.command) && DoQuotaCommand(p, s, h, tx).Ok?
    ensures Get(DoQuotaCommand(p, s, h, tx).value, a).nonce == Get(s, a).nonce
  {
  }

  /** An applied transaction is signed, in time and the sender's next, and moves only the sender's nonce, by one. */
  lemma {:induction false} NonceAdvances(p: Params, h: nat, s: State, tx: Tx, a: Hash)
    requires p.Valid() && ApplyTx(p, s, h, tx).Ok?
    ensures tx.signed && tx.network == p.network && h <= tx.expiry && FeeOf(p, tx) <= tx.feeLimit
    ensures tx.nonce == Get(s, tx.sender).nonce + 1
    ensures Get(ApplyTx(p, s, h, tx).value, a).nonce == Get(s, a).nonce + If(a == tx.sender, 1)
  {
    CommandNonces(p, h, Charged(p, s, tx), tx, a);
  }
}
