/**
 The life of a release over a whole run: it is published once, every contribution is paid at
 most once and by agreement of its evaluators, and what is claimed and refunded is its budget.
 */
module Releases {
  import opened Allocation
  import AllocationTree
  import opened LedgerState
  import opened Reviews
  import opened Solvency
  import opened TransactionSafety
  import opened BlockExecution
  import opened Runs

  // ---------- what one act does to a release ----------

  predicate Publishes(act: Act, id: Hash)
  {
    act.Apply? && act.tx.command.PublishRelease? && act.tx.command.release == id
  }

  predicate IsClaim(act: Act) { act.Apply? && act.tx.command.ClaimReward? }

  predicate Claims(act: Act, id: Hash) { IsClaim(act) && act.tx.command.release == id }

  /** A publication extends the current release and commits to reviewed rows. */
  ghost predicate Publication(p: Params, s: State, c: Command)
    requires c.PublishRelease?
  {
    && c.release == ReleaseId(s.current, c.bundle, c.budget, c.allocationRoot, c.totalScore)
    && ReleaseKey(c.release) !in s.escrows
    && var rows := AllocatedRows(s, c.allocations);
       rows.Ok? && rows.value != [] && Root(p.le, Leaves(rows.value)) == c.allocationRoot
       && ScoreSum(rows.value) == c.totalScore
  }

  /** A claim proves its row against an open release that has not paid the contribution. */
  ghost predicate Claimable(p: Params, e: Escrow, h: nat, sender: Hash, c: Command)
    requires c.ClaimReward?
  {
    && e.detail.Release? && e.detail.maturity <= h < e.deadline && e.status == Open
    && c.contribution !in e.detail.claims
    && e.detail.leafCount > 0 && e.detail.total > 0 && |c.siblings| == BitLength(e.detail.leafCount - 1)
    && Allocation.Check(p.le, Leaf(Row(c.contribution, sender, c.score)), c.siblings, e.detail.root)
  }

  function Share(e: Escrow, score: nat): nat
    requires e.detail.Release? && e.detail.total > 0
  {
    e.detail.budget * score / e.detail.total
  }

  /** The effect of a command on the release `id`, and on which release is current. */
  ghost predicate Handled(p: Params, h: nat, s: State, tx: Tx, t: State, id: Hash)
  {
    var c, k := tx.command, ReleaseKey(id);
    && (c.PublishRelease? ==> Publication(p, s, c))
    && t.current == (if c.PublishRelease? then c.release else s.current)
    && if c.PublishRelease? && c.release == id then
         |c.allocations| == |AllocatedRows(s, c.allocations).value|
         && k in t.escrows && t.escrows[k] == NewRelease(p, h, tx.sender, c, |c.allocations|)
       else if c.ClaimReward? && c.release == id then
         && k in s.escrows && Claimable(p, s.escrows[k], h, tx.sender, c)
         && Share(s.escrows[k], c.score) <= s.escrows[k].remaining
         && k in t.escrows && t.escrows[k] == AfterClaim(s.escrows[k], c.contribution, Share(s.escrows[k], c.score))
       else SameAt(s, t, k)
  }

  ghost predicate SameAt(s: State, t: State, k: Key)
  {
    (k in t.escrows <==> k in s.escrows) && (k in s.escrows ==> t.escrows[k] == s.escrows[k])
  }

  /** The root a publication is checked against is the one `allocation_root_and_proofs` returns for its rows. */
  lemma {:induction false} PublishedRoot(p: Params, h: nat, s: State, c: Command)
    requires c.PublishRelease? && Canonical(p, c) && PublishCheck(p, s, h, c).Pass?
    ensures var rows := AllocatedRows(s, c.allocations).value;
            && AllocationTree.SortRows(p.le, rows) == rows && 0 < |rows| <= 256
            && c.allocationRoot == Root(p.le, Leaves(AllocationTree.SortRows(p.le, rows)))
  {
    RowsAscend(p, s, c);
    AllocationTree.SortLeaves(p.le, AllocatedRows(s, c.allocations).value);
  }

  lemma {:induction false} RowsAscend(p: Params, s: State, c: Command)
    requires c.PublishRelease? && Canonical(p, c) && AllocatedRows(s, c.allocations).Ok?
    ensures var rows := AllocatedRows(s, c.allocations).value;
            && |rows| == |c.allocations|
            && forall i, j :: 0 <= i < j < |rows| ==> p.le(rows[i].contribution, rows[j].contribution)
  {
    RowsFacts(s, c.allocations);
  }

  lemma {:induction false} PublishHandled(p: Params, h: nat, s: State, tx: Tx, id: Hash)
    requires tx.command.PublishRelease? && Canonical(p, tx.command)
    requires DoPublishRelease(p, s, h, tx.sender, tx.command).Ok?
    ensures Handled(p, h, s, tx, DoPublishRelease(p, s, h, tx.sender, tx.command).value, id)
  {
    RowsLength(s, tx.command.allocations);
  }

  lemma {:induction false} ClaimHandled(p: Params, h: nat, s: State, tx: Tx, id: Hash)
    requires tx.command.ClaimReward? && DoClaimReward(p, s, h, tx.sender, tx.command).Ok?
    ensures Handled(p, h, s, tx, DoClaimReward(p, s, h, tx.sender, tx.command).value, id)
  {
  }

  lemma {:induction false} TaskHandled(p: Params, h: nat, s: State, tx: Tx, id: Hash)
    requires OfTask(tx.command) && DoTaskCommand(p, s, h, tx).Ok?
    ensures Handled(p, h, s, tx, DoTaskCommand(p, s, h, tx).value, id)
  {
  }

  lemma {:induction false} ModelHandled(p: Params, h: nat, s: State, tx: Tx, id: Hash)
    requires p.Valid() && OfModel(tx.command) && Canonical(p, tx.command) && DoModelCommand(p, s, h, tx).Ok?
    ensures Handled(p, h, s, tx, DoModelCommand(p, s, h, tx).value, id)
  {
    if tx.command.PublishRelease? { PublishHandled(p, h, s, tx, id); }
    else if tx.command.ClaimReward? { ClaimHandled(p, h, s, tx, id); }
  }

  lemma {:induction false} QuotaHandled(p: Params, h: nat, s: State, tx: Tx, id: Hash)
    requires !OfTask(tx.command) && !OfModel(tx.command) && DoQuotaCommand(p, s, h, tx).Ok?
    ensures Handled(p, h, s, tx, DoQuotaCommand(p, s, h, tx).value, id)
  {
  }

  lemma {:induction false} SameRows(s: State, t: State, allocations: seq<(Hash, nat)>)
    requires t.contributions == s.contributions && t.current == s.current
    ensures AllocatedRows(t, allocations) == AllocatedRows(s, allocations)
  {
    if allocations != [] { SameRows(s, t, allocations[..|allocations| - 1]); }
  }

  /** Fees and nonces do not matter to a release. */
  lemma {:induction false} HandledElsewhere(p: Params, h: nat, s: State, tx: Tx, t: State, u: State, v: State, id: Hash)
    requires Handled(p, h, t, tx, u, id)
    requires t == s.(accounts := t.accounts) && v == u.(accounts := v.accounts)
    ensures Handled(p, h, s, tx, v, id)
  {
    if tx.command.PublishRelease? { SameRows(s, t, tx.command.allocations); }
  }

  lemma {:induction false} CommandHandled(p: Params, h: nat, s: State, tx: Tx, id: Hash)
    requires p.Valid() && Canonical(p, tx.command) && DoCommand(p, s, h, tx).Ok?
    ensures Handled(p, h, s, tx, DoCommand(p, s, h, tx).value, id)
  {
    if OfTask(tx.command) { TaskHandled(p, h, s, tx, id); }
    else if OfModel(tx.command) { ModelHandled(p, h, s, tx, id); }
    else { QuotaHandled(p, h, s, tx, id); }
  }

  lemma {:induction false} TransactionHandled(p: Params, h: nat, s: State, tx: Tx, id: Hash)
    requires p.Valid() && ApplyTx(p, s, h, tx).Ok?
    ensures Handled(p, h, s, tx, ApplyTx(p, s, h, tx).value, id)
  {
    var charged := Charged(p, s, tx);
    CommandHandled(p, h, charged, tx, id);
    HandledElsewhere(p, h, s, tx, charged, DoCommand(p, charged, h, tx).value, ApplyTx(p, s, h, tx).value, id);
  }

  /** What a block leaves of an object that may be due. */
  function IfDue(e: Escrow, height: nat): Escrow
  {
    if e.remaining > 0 && e.deadline <= height then ExpiredEscrow(e) else e
  }

  /** Opening a block refunds a due release in full, and drops only an empty one. */
  ghost predicate Refunds(s: State, height: nat, t: State, k: Key)
  {
    && (k in t.escrows ==> k in s.escrows && t.escrows[k] == IfDue(s.escrows[k], height))
    && (k in s.escrows && k !in t.escrows ==> s.escrows[k].remaining == 0)
  }

  ghost predicate Affects(p: Params, step: Mover, s: State, act: Act, id: Hash)
  {
    var r := step(s, act);
    r.Ok? ==>
      match act
      case Begin(height, _) => Refunds(s, height, r.value, ReleaseKey(id)) && r.value.current == s.current
      case Apply(height, tx) => Handled(p, height, s, tx, r.value, id)
      case Finish(_, _, _, _) => SameAt(s, r.value, ReleaseKey(id)) && r.value.current == s.current
  }

  lemma {:induction false} ActAffects(p: Params, s: State, act: Act, id: Hash)
    requires p.Valid()
    ensures Affects(p, ActAt(p), s, act, id)
  {
    if act.Apply? && ApplyTx(p, s, act.height, act.tx).Ok? { TransactionHandled(p, act.height, s, act.tx, id); }
  }

  ghost predicate Affecting(p: Params, step: Mover) { forall s, act, id :: Affects(p, step, s, act, id) }

  lemma {:induction false} ActsAffect(p: Params)
    requires p.Valid()
    ensures Affecting(p, ActAt(p))
  {
    forall s, act, id ensures Affects(p, ActAt(p), s, act, id) { ActAffects(p, s, act, id); }
  }

  // ---------- the books of a release ----------

  function Held(s: State, id: Hash): nat
  {
    if ReleaseKey(id) in s.escrows then s.escrows[ReleaseKey(id)].remaining else 0
  }

  function FundedBy(act: Act, id: Hash): nat { if Publishes(act, id) then act.tx.command.budget else 0 }

  function ClaimedBy(s: State, act: Act, id: Hash): nat
  {
    var k := ReleaseKey(id);
    if Claims(act, id) && k in s.escrows && s.escrows[k].detail.Release? && s.escrows[k].detail.total > 0
    then Share(s.escrows[k], act.tx.command.score) else 0
  }

  function RefundedBy(s: State, act: Act, id: Hash): nat
  {
    if act.Begin? && ReleaseKey(id) in s.escrows && s.escrows[ReleaseKey(id)].deadline <= act.height
    then Held(s, id) else 0
  }

  lemma {:induction false} ActBalances(p: Params, step: Mover, s: State, act: Act, id: Hash)
    requires Affects(p, step, s, act, id) && step(s, act).Ok?
    ensures Held(s, id) + FundedBy(act, id) == ClaimedBy(s, act, id) + RefundedBy(s, act, id) + Held(step(s, act).value,
        id)
  {
  }

  ghost function Funded(acts: seq<Act>, n: nat, id: Hash): nat
    requires n <= |acts|
  {
    if n == 0 then 0 else Funded(acts, n - 1, id) + FundedBy(acts[n - 1], id)
  }

  /** What the first n acts of a run paid out of the release. */
  ghost function Claimed(step: Mover, s: State, acts: seq<Act>, n: nat, id: Hash): nat
    requires n <= |acts| && Ran(step, s, acts, |acts|).Ok?
  {
    if n == 0 then 0 else Claimed(step, s, acts, n - 1, id) + ClaimedBy(StateAt(step, s, acts, n - 1), acts[n - 1], id)
  }

  /** What the first n acts of a run gave back to the owner of the release. */
  ghost function Refunded(step: Mover, s: State, acts: seq<Act>, n: nat, id: Hash): nat
    requires n <= |acts| && Ran(step, s, acts, |acts|).Ok?
  {
    if n == 0 then 0 else Refunded(step, s, acts, n - 1, id) + RefundedBy(StateAt(step, s, acts, n - 1), acts[n - 1],
                                                                          id)
  }

  lemma {:induction false} RunBalances(p: Params, step: Mover, s: State, acts: seq<Act>, n: nat, id: Hash)
    requires n <= |acts| && Ran(step, s, acts, |acts|).Ok? && Affecting(p, step)
    ensures Held(s, id) + Funded(acts, n, id)
            == Claimed(step, s, acts, n, id) + Refunded(step, s, acts, n, id) + Held(StateAt(step, s, acts, n), id)
  {
    if n > 0 {
      RunBalances(p, step, s, acts, n - 1, id);
      StateNext(step, s, acts, n - 1);
      assert Affects(p, step, StateAt(step, s, acts, n - 1), acts[n - 1], id);
      ActBalances(p, step, StateAt(step, s, acts, n - 1), acts[n - 1], id);
    }
  }

  /** Over any run, what a release held and was given is what it paid, refunded and still holds. */
  lemma {:induction false} ReleaseBooks(p: Params, s: State, acts: seq<Act>, id: Hash)
    requires p.Valid() && Ran(ActAt(p), s, acts, |acts|).Ok?
    ensures Held(s, id) + Funded(acts, |acts|, id) == Claimed(ActAt(p), s, acts, |acts|, id)
              + Refunded(ActAt(p), s, acts, |acts|, id) + Held(Ran(ActAt(p), s, acts, |acts|).value, id)
  {
    ActsAffect(p);
    RunBalances(p, ActAt(p), s, acts, |acts|, id);
  }

  // ---------- lineage ----------

  /** The release is the current one or an ancestor of it. */
  ghost predicate Descends(current: Hash, r: Hash)
  {
    current == r || (current.ReleaseId? && Descends(current.parent, r))
  }

  lemma {:induction false} DescendsTrans(a: Hash, b: Hash, c: Hash)
    requires Descends(a, b) && Descends(b, c)
    ensures Descends(a, c)
  {
    if a != b { DescendsTrans(a.parent, b, c); }
  }

  lemma {:induction false} AncestorSmaller(current: Hash, r: Hash)
    requires Descends(current, r)
    ensures current == r || r < current
  {
    if current != r { AncestorSmaller(current.parent, r); }
  }

  /** No release is among the ancestors of its own parent. */
  lemma {:induction false} NeverOwnAncestor(r: Hash)
    requires r.ReleaseId?
    ensures !Descends(r.parent, r)
  {
    if Descends(r.parent, r) { AncestorSmaller(r.parent, r); }
  }

  lemma {:induction false} ActDescends(p: Params, step: Mover, s: State, act: Act)
    requires Affecting(p, step) && step(s, act).Ok?
    ensures Descends(step(s, act).value.current, s.current)
  {
    assert Affects(p, step, s, act, s.current);
    assert Descends(s.current, s.current);
  }

  lemma {:induction false} CurrentDescends(p: Params, step: Mover, s: State, acts: seq<Act>, i: nat, j: nat)
    requires i <= j <= |acts| && Ran(step, s, acts, |acts|).Ok? && Affecting(p, step)
    ensures Descends(StateAt(step, s, acts, j).current, StateAt(step, s, acts, i).current)
  {
    if i < j {
      CurrentDescends(p, step, s, acts, i, j - 1);
      StateNext(step, s, acts, j - 1);
      ActDescends(p, step, StateAt(step, s, acts, j - 1), acts[j - 1]);
      DescendsTrans(StateAt(step, s, acts, j).current, StateAt(step, s, acts, j - 1).current,
                    StateAt(step, s, acts, i).current);
    }
  }

  /** What a publication in a run leaves: the release is current, and its parent was. */
  lemma {:induction false} PublishedAt(p: Params, step: Mover, s: State, acts: seq<Act>, i: nat, id: Hash)
    requires i < |acts| && Ran(step, s, acts, |acts|).Ok? && Affecting(p, step) && Publishes(acts[i], id)
    ensures Publication(p, StateAt(step, s, acts, i), acts[i].tx.command)
    ensures id.ReleaseId? && id.parent == StateAt(step, s, acts, i).current
    ensures StateAt(step, s, acts, i + 1).current == id
  {
    StateNext(step, s, acts, i);
    assert Affects(p, step, StateAt(step, s, acts, i), acts[i], id);
  }

  /** Once published, a release stays an ancestor of the current one. */
  lemma {:induction false} StaysAncestor(p: Params, step: Mover, s: State, acts: seq<Act>, i: nat, j: nat, id: Hash)
    requires i < j <= |acts| && Ran(step, s, acts, |acts|).Ok? && Affecting(p, step) && Publishes(acts[i], id)
    ensures Descends(StateAt(step, s, acts, j).current, id)
  {
    PublishedAt(p, step, s, acts, i, id);
    CurrentDescends(p, step, s, acts, i + 1, j);
  }

  lemma {:induction false} PublishedTwice(p: Params, step: Mover, s: State, acts: seq<Act>, i: nat, j: nat, id: Hash)
    requires i < j < |acts| && Ran(step, s, acts, |acts|).Ok? && Affecting(p, step) && Publishes(acts[i], id)
    ensures !Publishes(acts[j], id)
  {
    if Publishes(acts[j], id) {
      StaysAncestor(p, step, s, acts, i, j, id);
      PublishedAt(p, step, s, acts, j, id);
      NeverOwnAncestor(id);
    }
  }

  /** The terms of a release never change. */
  ghost predicate SameTerms(e: Escrow, f: Escrow)
  {
    && e.owner == f.owner && e.deadline == f.deadline && e.detail.Release? && f.detail.Release?
    && e.detail == f.detail.(claims := e.detail.claims)
  }

  lemma {:induction false} TermsNext(p: Params, step: Mover, s: State, act: Act, id: Hash, e: Escrow)
    requires Affects(p, step, s, act, id) && step(s, act).Ok? && ReleaseKey(id) in s.escrows
    requires SameTerms(s.escrows[ReleaseKey(id)], e)
    requires ReleaseKey(id) in step(s, act).value.escrows
    ensures SameTerms(step(s, act).value.escrows[ReleaseKey(id)], e)
  {
  }

  /** A release that is there was published in the run, on the terms it has. */
  lemma {:induction false} PublishedBefore(p: Params, step: Mover, s: State, acts: seq<Act>, n: nat,
                                           id: Hash) returns (m: nat)
    requires n <= |acts| && Ran(step, s, acts, |acts|).Ok? && Affecting(p, step)
    requires ReleaseKey(id) !in s.escrows && ReleaseKey(id) in StateAt(step, s, acts, n).escrows
    ensures m < n && Publishes(acts[m], id)
    ensures SameTerms(StateAt(step, s, acts, n).escrows[ReleaseKey(id)],
                      NewRelease(p, acts[m].height, acts[m].tx.sender, acts[m].tx.command,
                                 |acts[m].tx.command.allocations|))
  {
    var before := StateAt(step, s, acts, n - 1);
    StateNext(step, s, acts, n - 1);
    assert Affects(p, step, before, acts[n - 1], id);
    if ReleaseKey(id) in before.escrows {
      m := PublishedBefore(p, step, s, acts, n - 1, id);
      TermsNext(p, step, before, acts[n - 1], id,
                NewRelease(p, acts[m].height, acts[m].tx.sender, acts[m].tx.command, |acts[m].tx.command.allocations|));
    } else {
      m := n - 1;
    }
  }

  // ---------- claims ----------

  /** A paid contribution stays on the release's list for as long as the release is there. */
  lemma {:induction false} ClaimStays(p: Params, step: Mover, s: State, acts: seq<Act>, i: nat, n: nat, id: Hash)
    requires i < n <= |acts| && Ran(step, s, acts, |acts|).Ok? && Affecting(p, step)
    requires ReleaseKey(id) !in s.escrows && Claims(acts[i], id)
    ensures var t := StateAt(step, s, acts, n);
            ReleaseKey(id) in t.escrows ==>
              t.escrows[ReleaseKey(id)].detail.Release?
              && acts[i].tx.command.contribution in t.escrows[ReleaseKey(id)].detail.claims
  {
    var before := StateAt(step, s, acts, n - 1);
    StateNext(step, s, acts, n - 1);
    assert Affects(p, step, before, acts[n - 1], id);
    if i < n - 1 {
      ClaimStays(p, step, s, acts, i, n - 1, id);
      NotRepublished(p, step, s, acts, i, n - 1, id);
    }
  }

  lemma {:induction false} ClaimIsPublished(p: Params, step: Mover, s: State, acts: seq<Act>, i: nat,
                                            id: Hash) returns (m: nat)
    requires i < |acts| && Ran(step, s, acts, |acts|).Ok? && Affecting(p, step)
    requires ReleaseKey(id) !in s.escrows && Claims(acts[i], id)
    ensures m < i && Publishes(acts[m], id) && ReleaseKey(id) in StateAt(step, s, acts, i).escrows
    ensures SameTerms(StateAt(step, s, acts, i).escrows[ReleaseKey(id)],
                      NewRelease(p, acts[m].height, acts[m].tx.sender, acts[m].tx.command,
                                 |acts[m].tx.command.allocations|))
    ensures Claimable(p, StateAt(step, s, acts, i).escrows[ReleaseKey(id)], acts[i].height, acts[i].tx.sender,
                      acts[i].tx.command)
  {
    StateNext(step, s, acts, i);
    assert Affects(p, step, StateAt(step, s, acts, i), acts[i], id);
    m := PublishedBefore(p, step, s, acts, i, id);
  }

  lemma {:induction false} NotRepublished(p: Params, step: Mover, s: State, acts: seq<Act>, i: nat, j: nat, id: Hash)
    requires i < j < |acts| && Ran(step, s, acts, |acts|).Ok? && Affecting(p, step)
    requires ReleaseKey(id) !in s.escrows && Claims(acts[i], id)
    ensures !Publishes(acts[j], id)
  {
    var m := ClaimIsPublished(p, step, s, acts, i, id);
    PublishedTwice(p, step, s, acts, m, j, id);
  }

  lemma {:induction false} ClaimedOnce(p: Params, step: Mover, s: State, acts: seq<Act>, i: nat, j: nat, id: Hash)
    requires i < j < |acts| && Ran(step, s, acts, |acts|).Ok? && Affecting(p, step)
    requires ReleaseKey(id) !in s.escrows && Claims(acts[i], id) && Claims(acts[j], id)
    ensures acts[i].tx.command.contribution != acts[j].tx.command.contribution
  {
    ClaimStays(p, step, s, acts, i, j, id);
    var m := ClaimIsPublished(p, step, s, acts, j, id);
  }

  /** A committed row names an evaluated contribution to the current release, its owner and its score. */
  lemma {:induction false} RowSource(s: State, allocations: seq<(Hash, nat)>, row: Row)
    requires AllocatedRows(s, allocations).Ok? && row in AllocatedRows(s, allocations).value
    ensures row.contribution in s.contributions
    ensures var o := s.contributions[row.contribution];
            o.stage == Evaluated && o.owner == row.payee && o.score == row.score && o.score > 0 && o.parent == s.current
  {
    var n := |allocations| - 1;
    if row in AllocatedRows(s, allocations[..n]).value { RowSource(s, allocations[..n], row); }
  }

  /** The contribution a claim is paid for, as it stood when its release was published. */
  ghost predicate Backed(s: State, tx: Tx)
    requires tx.command.ClaimReward?
  {
    && tx.command.contribution in s.contributions
    && var o := s.contributions[tx.command.contribution];
       o.stage == Evaluated && o.owner == tx.sender && o.score == tx.command.score && o.score > 0
       && o.parent == s.current
  }

  lemma {:induction false} RowBacked(p: Params, s: State, c: Command, e: Escrow, h: nat, tx: Tx)
    requires c.PublishRelease? && Publication(p, s, c) && tx.command.ClaimReward?
    requires Claimable(p, e, h, tx.sender, tx.command)
    requires e.detail.root == c.allocationRoot && e.detail.leafCount == |c.allocations|
    ensures Backed(s, tx)
  {
    var rows := AllocatedRows(s, c.allocations).value;
    var row := Row(tx.command.contribution, tx.sender, tx.command.score);
    RowsLength(s, c.allocations);
    CheckSound(p.le, row, tx.command.siblings, rows);
    RowSource(s, c.allocations, row);
  }

  lemma {:induction false} ClaimIsBacked(p: Params, step: Mover, s: State, acts: seq<Act>, j: nat,
                                         id: Hash) returns (m: nat)
    requires j < |acts| && Ran(step, s, acts, |acts|).Ok? && Affecting(p, step)
    requires ReleaseKey(id) !in s.escrows && Claims(acts[j], id)
    ensures m < j && Publishes(acts[m], id) && Backed(StateAt(step, s, acts, m), acts[j].tx)
  {
    m := ClaimIsPublished(p, step, s, acts, j, id);
    PublishedAt(p, step, s, acts, m, id);
    RowBacked(p, StateAt(step, s, acts, m), acts[m].tx.command, StateAt(step, s, acts, j).escrows[ReleaseKey(id)],
              acts[j].height, acts[j].tx);
  }

  // ---------- a contribution is paid once ----------

  /** Contributions are filed under ids that name the release they build on. */
  ghost predicate Named(s: State)
  {
    forall k :: k in s.contributions ==> k.ContributionId? && k.parent == s.contributions[k].parent
  }

  lemma {:induction false} ContributeNames(p: Params, h: nat, s: State, sender: Hash, c: Command)
    requires p.Valid() && c.Contribute? && DoContribute(p, s, h, sender, c).Ok? && Named(s)
    ensures Named(DoContribute(p, s, h, sender, c).value)
  {
  }

  lemma {:induction false} EvaluateNames(p: Params, s: State, sender: Hash, c: Command)
    requires c.Evaluate? && DoEvaluate(p, s, sender, c).Ok? && Named(s)
    ensures Named(DoEvaluate(p, s, sender, c).value)
  {
  }

  lemma {:induction false} PublishNames(p: Params, h: nat, s: State, sender: Hash, c: Command)
    requires c.PublishRelease? && Canonical(p, c) && DoPublishRelease(p, s, h, sender, c).Ok? && Named(s)
    ensures Named(DoPublishRelease(p, s, h, sender, c).value)
  {
  }

  lemma {:induction false} CommandNames(p: Params, h: nat, s: State, tx: Tx)
    requires p.Valid() && Canonical(p, tx.command) && DoCommand(p, s, h, tx).Ok? && Named(s)
    ensures Named(DoCommand(p, s, h, tx).value)
  {
    var c := tx.command;
    if c.Contribute? { ContributeNames(p, h, s, tx.sender, c); }
    else if c.Evaluate? { EvaluateNames(p, s, tx.sender, c); }
    else if c.PublishRelease? { PublishNames(p, h, s, tx.sender, c); }
    else { OthersKeepReviews(p, h, s, tx); }
  }

  ghost predicate ActNames(step: Mover, s: State, act: Act)
  {
    Named(s) && step(s, act).Ok? ==> Named(step(s, act).value)
  }

  lemma {:induction false} TransactionNames(p: Params, h: nat, s: State, tx: Tx)
    requires p.Valid() && Named(s) && ApplyTx(p, s, h, tx).Ok?
    ensures Named(ApplyTx(p, s, h, tx).value)
  {
    CommandNames(p, h, Charged(p, s, tx), tx);
  }

  lemma {:induction false} OpenedNames(p: Params, s: State, height: nat)
    requires p.Valid() && Named(s)
    ensures Named(Opened(p, s, height))
  {
  }

  lemma {:induction false} ActKeepsNames(p: Params, s: State, act: Act)
    requires p.Valid()
    ensures ActNames(ActAt(p), s, act)
  {
    if Named(s) && DoAct(p, s, act).Ok? {
      match act
      case Begin(height, _) => OpenedNames(p, s, height);
      case Apply(height, tx) => TransactionNames(p, height, s, tx);
      case Finish(_, _, _, _) =>
    }
  }

  ghost predicate Naming(step: Mover) { forall s, act :: ActNames(step, s, act) }

  lemma {:induction false} ActsName(p: Params)
    requires p.Valid()
    ensures Naming(ActAt(p))
  {
    forall s, act ensures ActNames(ActAt(p), s, act) { ActKeepsNames(p, s, act); }
  }

  lemma {:induction false} RunNames(step: Mover, s: State, acts: seq<Act>, n: nat)
    requires n <= |acts| && Ran(step, s, acts, |acts|).Ok? && Naming(step) && Named(s)
    ensures Named(StateAt(step, s, acts, n))
  {
    if n > 0 {
      RunNames(step, s, acts, n - 1);
      StateNext(step, s, acts, n - 1);
      assert ActNames(step, StateAt(step, s, acts, n - 1), acts[n - 1]);
    }
  }

  /** Two releases published in a run have different parents. */
  lemma {:induction false} ParentsDiffer(p: Params, step: Mover, s: State, acts: seq<Act>, i: nat, j: nat)
    requires i < j < |acts| && Ran(step, s, acts, |acts|).Ok? && Affecting(p, step)
    requires acts[i].Apply? && acts[i].tx.command.PublishRelease?
    ensures StateAt(step, s, acts, i).current != StateAt(step, s, acts, j).current
  {
    var id := acts[i].tx.command.release;
    PublishedAt(p, step, s, acts, i, id);
    StaysAncestor(p, step, s, acts, i, j, id);
    NeverOwnAncestor(id);
  }

  /** A start without releases and contributions, as genesis is. */
  ghost predicate Bare(s: State) { s.escrows == map[] && s.contributions == map[] }

  lemma {:induction false} PaidApart(p: Params, step: Mover, s: State, acts: seq<Act>, i: nat, j: nat)
    requires i < j < |acts| && Ran(step, s, acts, |acts|).Ok? && Affecting(p, step) && Naming(step) && Bare(s)
    requires IsClaim(acts[i]) && IsClaim(acts[j])
    requires acts[i].tx.command.release != acts[j].tx.command.release
    ensures acts[i].tx.command.contribution != acts[j].tx.command.contribution
  {
    var m := ClaimIsBacked(p, step, s, acts, i, acts[i].tx.command.release);
    var n := ClaimIsBacked(p, step, s, acts, j, acts[j].tx.command.release);
    RunNames(step, s, acts, m);
    RunNames(step, s, acts, n);
    if m < n { ParentsDiffer(p, step, s, acts, m, n); } else { ParentsDiffer(p, step, s, acts, n, m); }
  }

  /** No two claims of a run name the same contribution, whichever release they name. */
  ghost predicate PaidOnce(acts: seq<Act>)
  {
    forall i, j :: 0 <= i < j < |acts| && IsClaim(acts[i]) && IsClaim(acts[j]) ==>
      acts[i].tx.command.contribution != acts[j].tx.command.contribution
  }

  /** Over any run from a bare start, a contribution is paid at most once. */
  lemma {:induction false} ContributionsPaidOnce(p: Params, s: State, acts: seq<Act>)
    requires p.Valid() && Bare(s) && Ran(ActAt(p), s, acts, |acts|).Ok?
    ensures PaidOnce(acts)
  {
    ActsAffect(p);
    ActsName(p);
    var step := ActAt(p);
    forall i, j | 0 <= i < j < |acts| && IsClaim(acts[i]) && IsClaim(acts[j])
      ensures acts[i].tx.command.contribution != acts[j].tx.command.contribution
    {
      if acts[i].tx.command.release == acts[j].tx.command.release {
        ClaimedOnce(p, step, s, acts, i, j, acts[i].tx.command.release);
      } else {
        PaidApart(p, step, s, acts, i, j);
      }
    }
  }

  /** Every paid claim goes to the owner of a contribution whose score the threshold of evaluators agreed. */
  lemma {:induction false} ClaimsAreAgreed(p: Params, s: State, acts: seq<Act>, j: nat) returns (m: nat)
    requires p.Valid() && p.threshold > 0 && Bare(s) && Ran(ActAt(p), s, acts, |acts|).Ok?
    requires j < |acts| && IsClaim(acts[j])
    ensures m < j && Publishes(acts[m], acts[j].tx.command.release)
    ensures var t := StateAt(ActAt(p), s, acts, m);
            Backed(t, acts[j].tx) && Agreed(p, t.contributions[acts[j].tx.command.contribution])
  {
    ActsAffect(p);
    m := ClaimIsBacked(p, ActAt(p), s, acts, j, acts[j].tx.command.release);
    RanOk(ActAt(p), s, acts, m, |acts|);
    RunReviewed(p, s, acts, m);
    assert Reviewed(p, StateAt(ActAt(p), s, acts, m).contributions[acts[j].tx.command.contribution]);
  }

  // ---------- settlement ----------

  lemma {:induction false} FundedOnce(acts: seq<Act>, n: nat, i: nat, id: Hash)
    requires n <= |acts| && i < |acts| && Publishes(acts[i], id) && forall j :: 0 <= j < |acts| && j != i ==>
               !Publishes(acts[j], id)
    ensures Funded(acts, n, id) == if i < n then acts[i].tx.command.budget else 0
  {
    if n > 0 { FundedOnce(acts, n - 1, i, id); }
  }

  lemma {:induction false} OnlyPublication(p: Params, step: Mover, s: State, acts: seq<Act>, i: nat, id: Hash)
    requires i < |acts| && Ran(step, s, acts, |acts|).Ok? && Affecting(p, step) && Publishes(acts[i], id)
    ensures forall j :: 0 <= j < |acts| && j != i ==> !Publishes(acts[j], id)
  {
    forall j | 0 <= j < |acts| && j != i ensures !Publishes(acts[j], id) {
      if j < i && Publishes(acts[j], id) { PublishedTwice(p, step, s, acts, j, i, id); }
      if i < j { PublishedTwice(p, step, s, acts, i, j, id); }
    }
  }

  /** When a release of the run is due at or before h, and nothing due is left funded, it holds nothing. */
  lemma {:induction false} NothingHeld(p: Params, step: Mover, s: State, acts: seq<Act>, i: nat, h: nat, id: Hash)
    requires i < |acts| && Ran(step, s, acts, |acts|).Ok? && Affecting(p, step) && Bare(s) && Publishes(acts[i], id)
    requires ClearThrough(StateAt(step, s, acts, |acts|).escrows, h)
    requires acts[i].height + (p.rewardMaturity + p.claimWindow) <= h
    ensures Held(StateAt(step, s, acts, |acts|), id) == 0
  {
    if ReleaseKey(id) in StateAt(step, s, acts, |acts|).escrows {
      var m := PublishedBefore(p, step, s, acts, |acts|, id);
      OnlyPublication(p, step, s, acts, i, id);
    }
  }

  /** The act publishes a release that is due for expiry at or before height h. */
  predicate WindowClosed(p: Params, act: Act, h: nat)
  {
    act.Apply? && act.tx.command.PublishRelease? && act.height + (p.rewardMaturity + p.claimWindow) <= h
  }

  /** Every release whose claim window has closed by height h paid and refunded exactly its budget. */
  ghost predicate BudgetsSettled(p: Params, s: State, acts: seq<Act>, h: nat)
    requires p.Valid() && Ran(ActAt(p), s, acts, |acts|).Ok?
  {
    forall i :: 0 <= i < |acts| && WindowClosed(p, acts[i], h) ==>
      var c := acts[i].tx.command;
      Claimed(ActAt(p), s, acts, |acts|, c.release) + Refunded(ActAt(p), s, acts, |acts|, c.release) == c.budget
  }

  lemma {:induction false} ReleaseSettled(p: Params, step: Mover, s: State, acts: seq<Act>, i: nat, h: nat, id: Hash)
    requires i < |acts| && Ran(step, s, acts, |acts|).Ok? && Affecting(p, step) && Bare(s) && Publishes(acts[i], id)
    requires ClearThrough(StateAt(step, s, acts, |acts|).escrows, h)
    requires acts[i].height + (p.rewardMaturity + p.claimWindow) <= h
    ensures Claimed(step, s, acts, |acts|, id) + Refunded(step, s, acts, |acts|, id) == acts[i].tx.command.budget
  {
    RunBalances(p, step, s, acts, |acts|, id);
    NothingHeld(p, step, s, acts, i, h, id);
    OnlyPublication(p, step, s, acts, i, id);
    FundedOnce(acts, |acts|, i, id);
  }

  lemma {:induction false} ReleasesSettled(p: Params, s: State, acts: seq<Act>, h: nat)
    requires p.Valid() && Bare(s) && Ran(ActAt(p), s, acts, |acts|).Ok?
    requires ClearThrough(Ran(ActAt(p), s, acts, |acts|).value.escrows, h)
    ensures BudgetsSettled(p, s, acts, h)
  {
    ActsAffect(p);
    forall i | 0 <= i < |acts| && WindowClosed(p, acts[i], h)
      ensures var c := acts[i].tx.command;
              Claimed(ActAt(p), s, acts, |acts|, c.release) + Refunded(ActAt(p), s, acts, |acts|, c.release) == c.budget
    {
      ReleaseSettled(p, ActAt(p), s, acts, i, h, acts[i].tx.command.release);
    }
  }
}
