/**
 What every transaction keeps: funds are conserved, no credited balance leaves u64, every
 release pays exactly its committed shares, and at most the mandatory number of funded
 objects share a deadline.
 */
module Solvency {
  import opened Allocation
  import opened MapSums
  import opened LedgerState

  // ---------- funds ----------

  lemma {:induction false} PutFunds(s: State, who: Hash, a: Account)
    ensures TotalFunds(Put(s, who, a)) + Get(s, who).balance == TotalFunds(s) + a.balance
  {
    SumSet(s.accounts, BalanceOf, who, a);
  }

  lemma {:induction false} BalanceBound(s: State, who: Hash)
    ensures Get(s, who).balance <= TotalFunds(s)
  {
    if who in s.accounts { SumAtLeast(s.accounts, BalanceOf, who); }
  }

  lemma {:induction false} EscrowFunds(s: State, k: Key, e: Escrow)
    ensures TotalFunds(s.(escrows := s.escrows[k := e])) + (if k in s.escrows then s.escrows[k].remaining else 0)
            == TotalFunds(s) + e.remaining
  {
    SumSet(s.escrows, RemainingOf, k, e);
  }

  /** A credit adds exactly its amount, and is in range whenever the funds it joins are. */
  lemma {:induction false} CreditFunds(s: State, who: Hash, n: nat)
    ensures var r := Credit(s, who, n);
            && (r.Ok? ==> TotalFunds(r.value) == TotalFunds(s) + n && r.value == s.(accounts := r.value.accounts))
            && (TotalFunds(s) + n < U64 ==> r.Ok?)
            && (r.Err? ==> r.code == Range)
  {
    BalanceBound(s, who);
    PutFunds(s, who, Get(s, who).(balance := Get(s, who).balance + n));
  }

  lemma {:induction false} PayFunds(s: State, who: Hash, n: nat)
    ensures var r := Pay(s, who, n);
            && (r.Ok? ==> n > 0 && TotalFunds(r.value) + n == TotalFunds(s))
            && (r.Ok? ==> r.value == s.(accounts := r.value.accounts))
            && (r.Err? ==> r.code == Funds)
  {
    if Get(s, who).balance >= n {
      PutFunds(s, who, Get(s, who).(balance := Get(s, who).balance - n));
    }
  }

  // ---------- releases ----------

  ghost predicate Distinct(rows: seq<Row>)
  {
    forall i, j :: 0 <= i < j < |rows| ==> rows[i].contribution != rows[j].contribution
  }

  /** What the claims have paid to the first n rows. */
  ghost function Paid(rows: seq<Row>, claims: map<Hash, nat>, n: nat): nat
    requires n <= |rows|
  {
    if n == 0 then 0
    else Paid(rows, claims, n - 1) + if rows[n - 1].contribution in claims then claims[rows[n - 1].contribution] else 0
  }

  /** Every recorded claim is some row's share, rounded down. */
  ghost predicate ClaimsAreShares(rows: seq<Row>, claims: map<Hash, nat>, budget: nat, total: nat)
    requires total > 0
  {
    && (forall i :: 0 <= i < |rows| && rows[i].contribution in claims ==>
          claims[rows[i].contribution] == budget * rows[i].score / total)
    && (forall c :: c in claims ==> exists i :: 0 <= i < |rows| && rows[i].contribution == c)
  }

  ghost predicate Committed(le: Order, e: Escrow, rows: seq<Row>)
    requires e.detail.Release?
  {
    && rows != [] && Distinct(rows)
    && e.detail.root == Root(le, Leaves(rows)) && e.detail.leafCount == |rows|
    && e.detail.total == ScoreSum(rows) && e.detail.total > 0
    && ClaimsAreShares(rows, e.detail.claims, e.detail.budget, e.detail.total)
    && (e.status == Open ==> e.remaining + Paid(rows, e.detail.claims, |rows|) == e.detail.budget)
    && (e.status != Open ==> e.remaining == 0)
  }

  ghost predicate ReleaseOk(le: Order, e: Escrow)
    requires e.detail.Release?
  {
    exists rows :: Committed(le, e, rows)
  }

  lemma {:induction false} ShareBound(paid: nat, b: nat, score: nat, t: nat, sum: nat)
    requires t > 0 && paid * t <= b * sum
    ensures (paid + b * score / t) * t <= b * (sum + score)
  {
    var q := b * score / t;
    assert q * t <= b * score;
    assert (paid + q) * t == paid * t + q * t;
    assert b * (sum + score) == b * sum + b * score;
  }

  lemma {:induction false} PaidBelowShares(rows: seq<Row>, claims: map<Hash, nat>, budget: nat, total: nat, n: nat)
    requires total > 0 && n <= |rows| && ClaimsAreShares(rows, claims, budget, total)
    ensures Paid(rows, claims, n) * total <= budget * ScoreSum(rows[..n])
  {
    if n > 0 {
      PaidBelowShares(rows, claims, budget, total, n - 1);
      assert rows[..n][..n - 1] == rows[..n - 1];
      ShareBound(Paid(rows, claims, n - 1), budget, rows[n - 1].score, total, ScoreSum(rows[..n - 1]));
      if rows[n - 1].contribution !in claims {
        Widen(budget, ScoreSum(rows[..n - 1]), rows[n - 1].score);
      }
    }
  }

  lemma {:induction false} Widen(b: nat, x: nat, y: nat)
    ensures b * x <= b * (x + y)
  {
    assert b * (x + y) == b * x + b * y;
  }

  /** Shares rounded down never add up to more than the budget. */
  lemma {:induction false} PaidWithinBudget(rows: seq<Row>, claims: map<Hash, nat>, budget: nat, total: nat)
    requires total > 0 && total == ScoreSum(rows) && ClaimsAreShares(rows, claims, budget, total)
    ensures Paid(rows, claims, |rows|) <= budget
  {
    PaidBelowShares(rows, claims, budget, total, |rows|);
    assert rows[..|rows|] == rows;
    CancelTotal(Paid(rows, claims, |rows|), budget, total);
  }

  lemma {:induction false} CancelTotal(x: nat, b: nat, t: nat)
    requires t > 0 && x * t <= b * t
    ensures x <= b
  {
    assert x >= b + 1 ==> x * t >= (b + 1) * t;
    assert (b + 1) * t == b * t + t;
  }

  /** Recording one new claim raises what has been paid by exactly its amount. */
  lemma {:induction false} PaidStep(rows: seq<Row>, claims: map<Hash, nat>, c: Hash, amount: nat, n: nat, at: nat)
    requires Distinct(rows) && n <= |rows| && at < |rows| && rows[at].contribution == c && c !in claims
    ensures Paid(rows, claims[c := amount], n) == Paid(rows, claims, n) + if at < n then amount else 0
  {
    if n > 0 {
      PaidStep(rows, claims, c, amount, n - 1, at);
    }
  }

  /** A row's claim on an open release is always covered, and keeps the release's books balanced. */
  lemma {:induction false} ClaimKeeps(le: Order, e: Escrow, rows: seq<Row>, row: Row, amount: nat)
    requires e.detail.Release? && Committed(le, e, rows) && e.status == Open && row in rows
    requires row.contribution !in e.detail.claims
    requires amount == e.detail.budget * row.score / e.detail.total
    ensures amount <= e.remaining && Committed(le, AfterClaim(e, row.contribution, amount), rows)
  {
    var r := e.detail;
    var at :| 0 <= at < |rows| && rows[at] == row;
    var claims := r.claims[row.contribution := amount];
    assert ClaimsAreShares(rows, claims, r.budget, r.total) by {
      forall i | 0 <= i < |rows| && rows[i].contribution in claims
        ensures claims[rows[i].contribution] == r.budget * rows[i].score / r.total
      {
        if rows[i].contribution == row.contribution { assert i == at; }
      }
    }
    PaidStep(rows, r.claims, row.contribution, amount, |rows|, at);
    PaidWithinBudget(rows, claims, r.budget, r.total);
  }

  // ---------- deadlines ----------

  ghost predicate EntryOk(p: Params, k: Key, e: Escrow)
  {
    match k
    case TaskKey(_) => e.detail.Task?
    case QuotaKey(_) => e.detail.Quota?
    case ReleaseKey(_) => e.detail.Release? && ReleaseOk(p.le, e)
  }

  ghost predicate SlotOk(p: Params, m: map<Key, Escrow>, d: nat)
  {
    |DueAt(m, d)| <= p.mandatoryExpiry
  }

  /** No funded object is due at or before height h. */
  ghost predicate ClearThrough(m: map<Key, Escrow>, h: nat)
  {
    forall k :: k in m && m[k].remaining > 0 ==> m[k].deadline > h
  }

  /** Every object is well formed, and no deadline holds more funded objects than one block can expire. */
  ghost predicate EscrowsOk(p: Params, m: map<Key, Escrow>)
  {
    && (forall k {:trigger EntryOk(p, k, m[k])} :: k in m ==> EntryOk(p, k, m[k]))
    && (forall d {:trigger SlotOk(p, m, d)} :: SlotOk(p, m, d))
  }

  lemma {:induction false} SubsetSize<T>(a: set<T>, b: set<T>)
    requires a <= b
    ensures |a| <= |b|
  {
    assert b == a + (b - a);
  }

  lemma {:induction false} AddKeeps(p: Params, h: nat, m: map<Key, Escrow>, k: Key, e: Escrow)
    requires EscrowsOk(p, m) && ClearThrough(m, h) && k !in m
    requires EntryOk(p, k, e) && e.deadline > h && |DueAt(m, e.deadline)| < p.mandatoryExpiry
    ensures EscrowsOk(p, m[k := e]) && ClearThrough(m[k := e], h)
  {
    var n := m[k := e];
    forall j | j in n ensures EntryOk(p, j, n[j])
    {
      if j != k { assert EntryOk(p, j, m[j]); }
    }
    forall d: nat ensures SlotOk(p, n, d)
    {
      assert SlotOk(p, m, d);
      if d == e.deadline {
        SubsetSize(DueAt(n, d), DueAt(m, d) + {k});
      } else {
        assert DueAt(n, d) == DueAt(m, d);
      }
    }
  }

  lemma {:induction false} UpdateKeeps(p: Params, m: map<Key, Escrow>, k: Key, e: Escrow)
    requires EscrowsOk(p, m) && k in m && EntryOk(p, k, e)
    requires e.deadline == m[k].deadline && (e.remaining > 0 ==> m[k].remaining > 0)
    ensures EscrowsOk(p, m[k := e])
    ensures forall h: nat :: ClearThrough(m, h) ==> ClearThrough(m[k := e], h)
  {
    var n := m[k := e];
    forall j | j in n ensures EntryOk(p, j, n[j])
    {
      if j != k { assert EntryOk(p, j, m[j]); }
    }
    forall d: nat ensures SlotOk(p, n, d)
    {
      assert SlotOk(p, m, d);
      SubsetSize(DueAt(n, d), DueAt(m, d));
    }
  }

  lemma {:induction false} RemoveKeeps(p: Params, m: map<Key, Escrow>, n: map<Key, Escrow>)
    requires EscrowsOk(p, m) && n.Keys <= m.Keys && forall k :: k in n ==> n[k] == m[k]
    ensures EscrowsOk(p, n)
    ensures forall h: nat :: ClearThrough(m, h) ==> ClearThrough(n, h)
  {
    forall j | j in n ensures EntryOk(p, j, n[j]) { assert EntryOk(p, j, m[j]); }
    forall d: nat ensures SlotOk(p, n, d)
    {
      assert SlotOk(p, m, d);
      SubsetSize(DueAt(n, d), DueAt(m, d));
    }
  }
}
