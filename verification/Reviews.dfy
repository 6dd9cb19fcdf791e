/**
 The review of contributions: a score that a release pays on was agreed by a threshold of
 evaluators other than the author, and is no higher than any of their votes.
 */
module Reviews {
  import opened Allocation
  import opened LedgerState

  /** Only evaluators other than the author vote, and nobody twice. */
  ghost predicate VotersOk(p: Params, c: Contribution)
  {
    forall v :: v in c.votes ==> v in p.evaluators && v != c.owner
  }

  /** The agreed score: enough votes, none below the score, one equal to it. */
  ghost predicate Agreed(p: Params, c: Contribution)
  {
    && |c.votes| >= p.threshold
    && (forall v :: v in c.votes ==> c.score <= c.votes[v].score)
    && (exists v :: v in c.votes && c.votes[v].score == c.score)
  }

  ghost predicate Reviewed(p: Params, c: Contribution)
  {
    && VotersOk(p, c)
    && (c.stage == Submitted ==> |c.votes| < p.threshold && c.score == 0)
    && (c.stage == Evaluated || c.stage == Adopted ==> Agreed(p, c))
    && (c.stage == Retired ==> c.votes == map[] && c.score == 0)
  }

  ghost predicate AllReviewed(p: Params, s: State)
  {
    forall k {:trigger Reviewed(p, s.contributions[k])} :: k in s.contributions ==> Reviewed(p, s.contributions[k])
  }

  lemma {:induction false} LeastScoreIs(votes: map<Hash, Vote>)
    requires votes.Keys != {}
    ensures (forall v :: v in votes ==> LeastScore(votes) <= votes[v].score)
    ensures exists v :: v in votes && votes[v].score == LeastScore(votes)
  {
    var scores := set v | v in votes.Keys :: votes[v].score;
    assert LeastScore(votes) in scores;
    forall v | v in votes ensures LeastScore(votes) <= votes[v].score { assert votes[v].score in scores; }
  }

  lemma {:induction false} EvaluateReviewed(p: Params, s: State, sender: Hash, c: Command)
    requires AllReviewed(p, s) && c.Evaluate? && DoEvaluate(p, s, sender, c).Ok?
    ensures AllReviewed(p, DoEvaluate(p, s, sender, c).value)
  {
    var o := s.contributions[c.contribution];
    assert Reviewed(p, o);
    var votes := o.votes[sender := Vote(c.score, c.evidence)];
    LeastScoreIs(votes);
    var t := DoEvaluate(p, s, sender, c).value;
    assert Reviewed(p, t.contributions[c.contribution]);
    forall k | k in t.contributions ensures Reviewed(p, t.contributions[k]) {
      if k != c.contribution { assert Reviewed(p, s.contributions[k]); }
    }
  }

  lemma {:induction false} ContributeReviewed(p: Params, h: nat, s: State, sender: Hash, c: Command)
    requires p.Valid() && p.threshold > 0 && AllReviewed(p, s) && c.Contribute? && DoContribute(p, s, h, sender, c).Ok?
    ensures AllReviewed(p, DoContribute(p, s, h, sender, c).value)
  {
    var t := DoContribute(p, s, h, sender, c).value;
    forall k | k in t.contributions ensures Reviewed(p, t.contributions[k]) {
      if k != c.contribution { assert Reviewed(p, s.contributions[k]); }
    }
  }

  /** Every row a release commits to is an agreed score of a candidate on the current release. */
  lemma {:induction false} RowsAgreed(p: Params, s: State, allocations: seq<(Hash, nat)>, i: nat)
    requires AllReviewed(p, s) && AllocatedRows(s, allocations).Ok? && i < |allocations|
    ensures var rows := AllocatedRows(s, allocations).value;
            && |rows| == |allocations| && rows[i].contribution == allocations[i].0
            && rows[i].contribution in s.contributions
            && var o := s.contributions[rows[i].contribution];
               o.stage == Evaluated && Agreed(p, o) && rows[i] == Row(allocations[i].0, o.owner, o.score) && o.score > 0
  {
    var n := |allocations| - 1;
    RowsLength(s, allocations);
    RowsLength(s, allocations[..n]);
    if i < n {
      RowsAgreed(p, s, allocations[..n], i);
    } else {
      assert Reviewed(p, s.contributions[allocations[n].0]);
    }
  }

  lemma {:induction false} RowsLength(s: State, allocations: seq<(Hash, nat)>)
    requires AllocatedRows(s, allocations).Ok?
    ensures |AllocatedRows(s, allocations).value| == |allocations|
  {
    if allocations != [] { RowsLength(s, allocations[..|allocations| - 1]); }
  }

  lemma {:induction false} IdsAreRows(allocations: seq<(Hash, nat)>, x: Hash) returns (i: nat)
    requires x in AllocatedIds(allocations)
    ensures i < |allocations| && allocations[i].0 == x
  {
    if allocations[0].0 == x {
      i := 0;
    } else {
      var j := IdsAreRows(allocations[1..], x);
      i := j + 1;
    }
  }

  /** Adoption marks only candidates whose score was agreed. */
  lemma {:induction false} PublishReviewed(p: Params, h: nat, s: State, sender: Hash, c: Command)
    requires AllReviewed(p, s) && c.PublishRelease? && Canonical(p, c) && DoPublishRelease(p, s, h, sender, c).Ok?
    ensures AllReviewed(p, DoPublishRelease(p, s, h, sender, c).value)
  {
    var t := DoPublishRelease(p, s, h, sender, c).value;
    forall k | k in t.contributions ensures Reviewed(p, t.contributions[k]) {
      assert Reviewed(p, s.contributions[k]);
      if k in AllocatedIds(c.allocations) {
        var i := IdsAreRows(c.allocations, k);
        RowsAgreed(p, s, c.allocations, i);
      }
    }
  }

  lemma {:induction false} CommandReviewed(p: Params, h: nat, s: State, tx: Tx)
    requires p.Valid() && p.threshold > 0 && AllReviewed(p, s) && Canonical(p, tx.command) && DoCommand(p, s, h, tx).Ok?
    ensures AllReviewed(p, DoCommand(p, s, h, tx).value)
  {
    var c := tx.command;
    if c.Contribute? { ContributeReviewed(p, h, s, tx.sender, c); }
    else if c.Evaluate? { EvaluateReviewed(p, s, tx.sender, c); }
    else if c.PublishRelease? { PublishReviewed(p, h, s, tx.sender, c); }
    else { OthersKeepReviews(p, h, s, tx); }
  }

  lemma {:induction false} OthersKeepReviews(p: Params, h: nat, s: State, tx: Tx)
    requires p.Valid() && Canonical(p, tx.command) && DoCommand(p, s, h, tx).Ok?
    requires !tx.command.Contribute? && !tx.command.Evaluate? && !tx.command.PublishRelease?
    ensures DoCommand(p, s, h, tx).value.contributions == s.contributions
  {
  }

  /** Every transaction keeps the review rules. */
  lemma {:induction false} TransactionReviewed(p: Params, h: nat, s: State, tx: Tx)
    requires p.Valid() && p.threshold > 0 && AllReviewed(p, s) && ApplyTx(p, s, h, tx).Ok?
    ensures AllReviewed(p, ApplyTx(p, s, h, tx).value)
  {
    var charged := Charged(p, s, tx);
    forall k | k in charged.contributions ensures Reviewed(p, charged.contributions[k]) { assert Reviewed(p,
        s.contributions[k]); }
    CommandReviewed(p, h, charged, tx);
    var done, t := DoCommand(p, charged, h, tx).value, ApplyTx(p, s, h, tx).value;
    forall k | k in t.contributions ensures Reviewed(p, t.contributions[k]) { assert Reviewed(p,
        done.contributions[k]); }
  }
}
