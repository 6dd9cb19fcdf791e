/**
 Execution of a block: retirement, mandatory expiry, maturing rewards, the transactions in
 order, and the block reward, with the invariant every block hands to the next.
 */
module BlockExecution {
  import opened Wrappers
  import opened Allocation
  import opened MapSums
  import opened LedgerState
  import opened Movements
  import opened Solvency
  import opened TransactionSafety

  datatype Entry = Expiry(key: Key) | Applied(tx: Tx, fee: nat)
  datatype Outcome = Outcome(state: State, receipts: seq<Entry>)
  datatype BlockInput = BlockInput(transactions: seq<Tx>, miner: Hash, parent: Hash)

  /** The invariant of a state after block h. */
  ghost predicate Good(p: Params, h: nat, s: State)
  {
    && p.Valid()
    && TotalFunds(s) == s.issued < U64
    && EscrowsOk(p, s.escrows) && ClearThrough(s.escrows, h)
    && forall k :: k in s.rewards ==> k.RewardId? && k.height <= h
  }

  function Subsidy(p: Params, height: nat): nat
    requires p.halvingInterval > 0
  {
    Halved(p.subsidy, if height / p.halvingInterval < 64 then height / p.halvingInterval else 64)
  }

  function Halved(n: nat, times: nat): nat
  {
    if times == 0 then n else Halved(n, times - 1) / 2
  }

  // ---------- what one account holds ----------

  /** Money may change form, never hands. */
  ghost predicate SameHoldings(s: State, t: State)
  {
    forall a :: Holdings(t, a) == Holdings(s, a) && Get(t, a).nonce == Get(s, a).nonce
  }

  /** A refund to its owner of what an object still held. */
  lemma {:induction false} RefundHolds(s: State, k: Key, e: Escrow, t: State)
    requires k in s.escrows && e.owner == s.escrows[k].owner && e.remaining == 0
    requires Credit(s, e.owner, s.escrows[k].remaining).Ok?
    requires t == Credit(s, e.owner, s.escrows[k].remaining).value.(escrows := s.escrows[k := e])
    ensures SameHoldings(s, t)
  {
    forall a ensures Holdings(t, a) == Holdings(s, a) && Get(t, a).nonce == Get(s, a).nonce {
      SumSet(s.escrows, HeldFor(a), k, e);
    }
  }

  /** A matured reward, removed and credited to its owner. */
  lemma {:induction false} PayoutHolds(s: State, k: Hash, t: State)
    requires k in s.rewards
    requires Credit(s, s.rewards[k].owner, s.rewards[k].amount).Ok?
    requires t == Credit(s, s.rewards[k].owner, s.rewards[k].amount).value.(rewards := s.rewards - {k})
    ensures SameHoldings(s, t)
  {
    forall a ensures Holdings(t, a) == Holdings(s, a) && Get(t, a).nonce == Get(s, a).nonce {
      SumRemove(s.rewards, OwedTo(a), k);
    }
  }

  // ---------- retirement ----------

  function RetiredContributions(p: Params, s: State, height: nat): map<Hash, Contribution>
    requires p.roundBlocks > 0
  {
    map k | k in s.contributions && s.contributions[k].parent == s.current
            && s.contributions[k].round == height / p.roundBlocks ::
      var c := s.contributions[k];
      if height > c.submitted + p.candidateLifetime && (c.stage == Submitted || c.stage == Evaluated)
      then c.(stage := Retired, votes := map[], score := 0) else c
  }

  predicate RetiresEscrow(s: State, height: nat, k: Key)
    requires k in s.escrows
  {
    s.escrows[k].remaining == 0 && if k.ReleaseKey? then k.id != s.current else s.escrows[k].deadline < height
  }

  /** Capacity is retired: stale candidates, stale nullifiers and spent objects. */
  function Retire(p: Params, s: State, height: nat): State
    requires p.roundBlocks > 0
  {
    s.(contributions := RetiredContributions(p, s, height),
       artifacts := (set a | a in s.artifacts && a.parent == s.current && a.round == height / p.roundBlocks),
       escrows := map k | k in s.escrows && !RetiresEscrow(s, height, k) :: s.escrows[k])
  }

  lemma {:induction false} RetireKeeps(p: Params, h: nat, s: State, height: nat)
    requires Ready(p, h, s)
    ensures Ready(p, h, Retire(p, s, height)) && Kept(p, h, s, Retire(p, s, height), 0)
  {
    var t := Retire(p, s, height);
    SumSub(s.escrows, t.escrows, RemainingOf);
    RemoveKeeps(p, s.escrows, t.escrows);
  }

  lemma {:induction false} RetireHolds(p: Params, s: State, height: nat)
    requires p.roundBlocks > 0
    ensures SameHoldings(s, Retire(p, s, height))
  {
    var t := Retire(p, s, height);
    forall a ensures Holdings(t, a) == Holdings(s, a) && Get(t, a).nonce == Get(s, a).nonce {
      SumSub(s.escrows, t.escrows, HeldFor(a));
    }
  }

  // ---------- mandatory expiry ----------

  function Rank(k: Key): nat { if k.QuotaKey? then 0 else if k.ReleaseKey? then 1 else 2 }

  /** The order of `sorted(due)`: by deadline, then by the object's key string. */
  predicate Before(le: Order, m: map<Key, Escrow>, a: Key, b: Key)
    requires a in m && b in m
  {
    m[a].deadline < m[b].deadline
    || (m[a].deadline == m[b].deadline && (Rank(a) < Rank(b) || (Rank(a) == Rank(b) && le(a.id, b.id))))
  }

  lemma {:induction false} FirstDue(p: Params, m: map<Key, Escrow>, due: set<Key>) returns (k: Key)
    requires p.Valid() && due != {} && due <= m.Keys
    ensures k in due && forall j :: j in due ==> Before(p.le, m, k, j)
    decreases |due|
  {
    var x :| x in due;
    if due == {x} {
      k := x;
    } else {
      var rest := due - {x};
      assert due == rest + {x};
      var y := FirstDue(p, m, rest);
      k := if Before(p.le, m, x, y) then x else y;
      assert forall j :: j in due ==> j == x || j in rest;
    }
  }

  function ExpiredEscrow(e: Escrow): Escrow { e.(remaining := 0, status := Expired) }

  lemma {:induction false} ExpiredEntryOk(p: Params, k: Key, e: Escrow)
    requires EntryOk(p, k, e)
    ensures EntryOk(p, k, ExpiredEscrow(e))
  {
    if k.ReleaseKey? {
      var rows :| Committed(p.le, e, rows);
      assert Committed(p.le, ExpiredEscrow(e), rows);
    }
  }

  /** Distinct objects in the order of expiry. */
  ghost predicate Ascending(p: Params, m: map<Key, Escrow>, keys: seq<Key>)
  {
    forall i, j :: 0 <= i < j < |keys| ==>
      keys[i] in m && keys[j] in m && keys[i] != keys[j] && Before(p.le, m, keys[i], keys[j])
  }

  lemma {:induction false} BeforeAntisymmetric(p: Params, m: map<Key, Escrow>, a: Key, b: Key)
    requires p.Valid() && a in m && b in m && Before(p.le, m, a, b) && Before(p.le, m, b, a)
    ensures a == b
  {
  }

  /** One set of objects has one ascending list. */
  lemma {:induction false} AscendingUnique(p: Params, m: map<Key, Escrow>, x: seq<Key>, y: seq<Key>)
    requires p.Valid() && Ascending(p, m, x) && Ascending(p, m, y)
    requires forall k :: k in x <==> k in y
    requires forall k :: k in x ==> k in m
    ensures x == y
    decreases |x|
  {
    assert x != [] ==> x[0] in y;
    assert y != [] ==> y[0] in x;
    if x != [] {
      SameFirst(p, m, x, y);
      SameRest(p, m, x, y);
      AscendingUnique(p, m, x[1..], y[1..]);
      assert x == [x[0]] + x[1..] && y == [y[0]] + y[1..];
    }
  }

  lemma {:induction false} SameFirst(p: Params, m: map<Key, Escrow>, x: seq<Key>, y: seq<Key>)
    requires p.Valid() && Ascending(p, m, x) && Ascending(p, m, y) && x != [] && y != []
    requires forall k :: k in x <==> k in y
    ensures x[0] == y[0]
  {
    assert x[0] in y && y[0] in x;
    var i :| 0 <= i < |y| && y[i] == x[0];
    var j :| 0 <= j < |x| && x[j] == y[0];
    if i > 0 && j > 0 { BeforeAntisymmetric(p, m, x[0], y[0]); }
  }

  lemma {:induction false} SameRest(p: Params, m: map<Key, Escrow>, x: seq<Key>, y: seq<Key>)
    requires Ascending(p, m, x) && Ascending(p, m, y) && x != [] && y != [] && x[0] == y[0]
    requires forall k :: k in x <==> k in y
    ensures Ascending(p, m, x[1..]) && Ascending(p, m, y[1..]) && forall k :: k in x[1..] <==> k in y[1..]
  {
    RestHas(p, m, x);
    RestHas(p, m, y);
  }

  lemma {:induction false} RestHas(p: Params, m: map<Key, Escrow>, x: seq<Key>)
    requires Ascending(p, m, x) && x != []
    ensures Ascending(p, m, x[1..]) && forall k :: k in x[1..] <==> k in x && k != x[0]
  {
    assert x == [x[0]] + x[1..];
  }

  function DueBy(m: map<Key, Escrow>, height: nat): set<Key>
  {
    set k | k in m && m[k].remaining > 0 && m[k].deadline <= height
  }

  /** One object refunded to its owner and emptied. */
  function ExpiredAt(s: State, k: Key): State
    requires k in s.escrows
  {
    var e := s.escrows[k];
    var paid := Put(s, e.owner, Get(s, e.owner).(balance := Get(s, e.owner).balance + e.remaining));
    paid.(escrows := s.escrows[k := ExpiredEscrow(e)])
  }

  lemma {:induction false} ExpiredAtIs(p: Params, s: State, h: nat, k: Key)
    requires Ready(p, h, s) && k in s.escrows
    ensures var r := Credit(s, s.escrows[k].owner, s.escrows[k].remaining);
            r.Ok? && ExpiredAt(s, k) == r.value.(escrows := r.value.escrows[k := ExpiredEscrow(s.escrows[k])])
  {
    CreditInRange(s, s.escrows[k].owner, s.escrows[k].remaining, k);
  }

  lemma {:induction false} ExpiryBooks(p: Params, s: State, h: nat, k: Key)
    requires Ready(p, h, s) && k in s.escrows
    ensures Kept(p, h, s, ExpiredAt(s, k), 0) && Ready(p, h, ExpiredAt(s, k))
  {
    var e := s.escrows[k];
    assert EntryOk(p, k, e);
    ExpiredEntryOk(p, k, e);
    FundedUpdate(p, h, s, e.owner, e.remaining, 0, k, ExpiredEscrow(e));
    ExpiredAtIs(p, s, h, k);
  }

  /** A refund is in range, and neither the books nor anybody's holdings change. */
  lemma {:induction false} ExpiryKeeps(p: Params, s: State, h: nat, k: Key)
    requires Ready(p, h, s) && k in s.escrows
    ensures Kept(p, h, s, ExpiredAt(s, k), 0) && Ready(p, h, ExpiredAt(s, k)) && SameHoldings(s, ExpiredAt(s, k))
  {
    ExpiryBooks(p, s, h, k);
    ExpiredAtIs(p, s, h, k);
    RefundHolds(s, k, ExpiredEscrow(s.escrows[k]), ExpiredAt(s, k));
  }

  /** One expiry: the refund and the emptied object. */
  method ExpireOne(p: Params, s: State, h: nat, k: Key) returns (r: Result<State>)
    requires Ready(p, h, s) && k in s.escrows
    ensures r == Ok(ExpiredAt(s, k))
  {
    ExpiredAtIs(p, s, h, k);
    var paid := Credit(s, s.escrows[k].owner, s.escrows[k].remaining);
    r := Ok(paid.value.(escrows := paid.value.escrows[k := ExpiredEscrow(s.escrows[k])]));
  }

  /** At most the mandatory number of objects can be due, because they all share this block's deadline. */
  lemma {:induction false} DueFits(p: Params, h: nat, m: map<Key, Escrow>)
    requires EscrowsOk(p, m) && ClearThrough(m, h)
    ensures |DueBy(m, h + 1)| <= p.mandatoryExpiry
  {
    assert SlotOk(p, m, h + 1);
    SubsetSize(DueBy(m, h + 1), DueAt(m, h + 1));
  }

  /** `sorted(due)[:limit]`: the first objects due, in order. */
  method SelectDue(p: Params, m: map<Key, Escrow>, height: nat) returns (keys: seq<Key>)
    requires p.Valid()
    ensures Ascending(p, m, keys) && forall k :: k in keys ==> k in DueBy(m, height)
    ensures |keys| == if |DueBy(m, height)| < p.mandatoryExpiry then |DueBy(m, height)| else p.mandatoryExpiry
    ensures forall k, j :: k in keys && j in DueBy(m, height) && j !in keys ==> Before(p.le, m, k, j)
    ensures |DueBy(m, height)| <= p.mandatoryExpiry ==> forall k :: k in DueBy(m, height) ==> k in keys
  {
    var due := DueBy(m, height);
    keys := [];
    while due != {} && |keys| < p.mandatoryExpiry
      invariant due <= DueBy(m, height) && |keys| + |due| == |DueBy(m, height)| && |keys| <= p.mandatoryExpiry
      invariant forall k :: k in keys ==> k in DueBy(m, height)
      invariant forall k :: k in DueBy(m, height) ==> k in keys || k in due
      invariant forall k, j :: k in keys && j in due ==> k in m && j in m && k != j && Before(p.le, m, k, j)
      invariant Ascending(p, m, keys)
      decreases |due|
    {
      ghost var first := FirstDue(p, m, due);
      var k :| k in due && forall j :: j in due ==> k in m && j in m && Before(p.le, m, k, j);
      keys := keys + [k];
      due := due - {k};
    }
  }

  /** The objects with the given ones expired. */
  function ExpiredIn(m: map<Key, Escrow>, keys: set<Key>): map<Key, Escrow>
  {
    map k | k in m :: if k in keys then ExpiredEscrow(m[k]) else m[k]
  }

  lemma {:induction false} ExpireNext(m: map<Key, Escrow>, keys: set<Key>, k: Key)
    requires k in m
    ensures ExpiredIn(m, keys)[k := ExpiredEscrow(ExpiredIn(m, keys)[k])] == ExpiredIn(m, keys + {k})
  {
  }

  lemma {:induction false} NothingLeftDue(m: map<Key, Escrow>, h: nat)
    ensures ClearThrough(ExpiredIn(m, DueBy(m, h)), h)
  {
  }

  function OwnersOf(m: map<Key, Escrow>, keys: set<Key>): set<Hash>
  {
    set k | k in keys && k in m :: m[k].owner
  }

  /** Part of the objects due have been refunded to their owners. */
  ghost predicate Refunded(p: Params, h: nat, s: State, t: State, done: set<Key>)
  {
    && Ready(p, h, t) && Kept(p, h, s, t, 0) && SameHoldings(s, t)
    && t == s.(accounts := t.accounts, escrows := ExpiredIn(s.escrows, done))
    && t.accounts.Keys == s.accounts.Keys + OwnersOf(s.escrows, done)
  }

  lemma {:induction false} RefundNext(p: Params, s: State, t: State, h: nat, k: Key, done: set<Key>)
    requires k in s.escrows && Refunded(p, h, s, t, done)
    ensures Refunded(p, h, s, ExpiredAt(t, k), done + {k})
  {
    ExpiryKeeps(p, t, h, k);
    ExpireNext(s.escrows, done, k);
    HoldingsTrans(s, t, ExpiredAt(t, k));
    OwnersNextKey(s.escrows, done, k);
  }

  method RefundStep(p: Params, ghost s: State, t: State, h: nat, k: Key, ghost done: set<Key>) returns (u: State)
    requires k in s.escrows && Refunded(p, h, s, t, done)
    ensures Refunded(p, h, s, u, done + {k})
  {
    RefundNext(p, s, t, h, k, done);
    var refunded := ExpireOne(p, t, h, k);
    u := refunded.value;
  }

  /** Refunding any set of objects, one after the other. */
  lemma {:induction false} RefundsExist(p: Params, s: State, h: nat, keys: set<Key>) returns (t: State)
    requires Ready(p, h, s) && keys <= s.escrows.Keys
    ensures Refunded(p, h, s, t, keys)
  {
    t := s;
    var done: set<Key> := {};
    RefundNone(p, s, h);
    while done != keys
      invariant done <= keys && Refunded(p, h, s, t, done)
      decreases keys - done
    {
      assert keys - done != {};
      var k :| k in keys - done;
      RefundNext(p, s, t, h, k, done);
      t, done := ExpiredAt(t, k), done + {k};
    }
  }

  lemma {:induction false} OwnersNextKey(m: map<Key, Escrow>, done: set<Key>, k: Key)
    requires k in m
    ensures OwnersOf(m, done + {k}) == OwnersOf(m, done) + {m[k].owner} && ExpiredIn(m, done)[k].owner == m[k].owner
  {
  }

  lemma {:induction false} HoldingsTrans(s: State, t: State, u: State)
    requires SameHoldings(s, t) && SameHoldings(t, u)
    ensures SameHoldings(s, u)
  {
    forall a ensures Holdings(u, a) == Holdings(s, a) && Get(u, a).nonce == Get(s, a).nonce {
      assert Holdings(t, a) == Holdings(s, a);
    }
  }

  /**
   Mandatory expiry of block h + 1.  The list is cut off at the mandatory number, yet nothing
   due is ever left behind, and every refund goes to the owner of the object.
   */
  method ExpireDue(p: Params, s: State, h: nat) returns (t: State, expired: seq<Key>)
    requires Ready(p, h, s)
    ensures Refunded(p, h, s, t, DueBy(s.escrows, h + 1)) && Ready(p, h + 1, t)
    ensures Ascending(p, s.escrows, expired)
    ensures forall k :: k in expired <==> k in DueBy(s.escrows, h + 1)
  {
    expired := SelectDue(p, s.escrows, h + 1);
    DueFits(p, h, s.escrows);
    t := RefundAll(p, s, h, expired);
    KeySetHolds(expired);
    assert KeySet(expired) == DueBy(s.escrows, h + 1);
    NothingLeftDue(s.escrows, h + 1);
  }

  function KeySet(keys: seq<Key>): set<Key>
  {
    if keys == [] then {} else KeySet(keys[..|keys| - 1]) + {keys[|keys| - 1]}
  }

  lemma {:induction false} KeySetHolds(keys: seq<Key>)
    ensures forall k :: k in KeySet(keys) <==> k in keys
  {
    if keys != [] {
      KeySetHolds(keys[..|keys| - 1]);
      assert keys == keys[..|keys| - 1] + [keys[|keys| - 1]];
    }
  }

  method RefundAll(p: Params, s: State, h: nat, keys: seq<Key>) returns (t: State)
    requires Ready(p, h, s) && forall k :: k in keys ==> k in s.escrows
    ensures Refunded(p, h, s, t, KeySet(keys))
  {
    t := s;
    var i := 0;
    RefundNone(p, s, h);
    while i < |keys|
      invariant 0 <= i <= |keys| && Refunded(p, h, s, t, KeySet(keys[..i]))
    {
      t := RefundStep(p, s, t, h, keys[i], KeySet(keys[..i]));
      assert keys[..i + 1][..i] == keys[..i];
      i := i + 1;
    }
    assert keys[..i] == keys;
  }

  lemma {:induction false} RefundNone(p: Params, s: State, h: nat)
    requires Ready(p, h, s)
    ensures Refunded(p, h, s, s, {})
  {
    assert ExpiredIn(s.escrows, {}) == s.escrows && OwnersOf(s.escrows, {}) == {};
  }

  // ---------- maturing rewards ----------

  lemma {:induction false} PopReward(s: State, k: Hash)
    requires k in s.rewards
    ensures TotalFunds(s.(rewards := s.rewards - {k})) + s.rewards[k].amount == TotalFunds(s)
  {
    SumRemove(s.rewards, AmountOf, k);
  }

  /** One reward removed and paid to its owner. */
  function PaidAt(s: State, k: Hash): State
    requires k in s.rewards
  {
    var v := s.rewards[k];
    Put(s, v.owner, Get(s, v.owner).(balance := Get(s, v.owner).balance + v.amount)).(rewards := s.rewards - {k})
  }

  lemma {:induction false} PayoutKeeps(p: Params, s: State, h: nat, k: Hash)
    requires Ready(p, h, s) && k in s.rewards
    ensures Credit(s.(rewards := s.rewards - {k}), s.rewards[k].owner, s.rewards[k].amount).Ok?
    ensures var t := PaidAt(s, k); Ready(p, h, t) && TotalFunds(t) == TotalFunds(s) && SameHoldings(s, t)
  {
    var v := s.rewards[k];
    PopReward(s, k);
    CreditFunds(s.(rewards := s.rewards - {k}), v.owner, v.amount);
    PayoutHolds(s, k, PaidAt(s, k));
  }

  method PayOut(p: Params, s: State, h: nat, k: Hash) returns (r: Result<State>)
    requires Ready(p, h, s) && k in s.rewards
    ensures r == Ok(PaidAt(s, k))
  {
    PayoutKeeps(p, s, h, k);
    r := Credit(s.(rewards := s.rewards - {k}), s.rewards[k].owner, s.rewards[k].amount);
  }

  function Unmatured(m: map<Hash, Pending>, height: nat): map<Hash, Pending>
  {
    map k | k in m && m[k].maturity > height :: m[k]
  }

  function Matured(m: map<Hash, Pending>, height: nat): map<Hash, Pending>
  {
    map k | k in m && m[k].maturity <= height :: m[k]
  }

  function PayeesOf(m: map<Hash, Pending>): set<Hash> { set k | k in m :: m[k].owner }

  /** Part of the matured rewards have been paid to their owners. */
  ghost predicate PaidOut(p: Params, h: nat, s: State, t: State, done: map<Hash, Pending>)
  {
    && Ready(p, h, t) && TotalFunds(t) == TotalFunds(s) && SameHoldings(s, t)
    && t == s.(accounts := t.accounts, rewards := s.rewards - done.Keys)
    && t.accounts.Keys == s.accounts.Keys + PayeesOf(done)
  }

  lemma {:induction false} PayeesNext(m: map<Hash, Pending>, done: map<Hash, Pending>, k: Hash)
    requires k in m && k !in done
    ensures PayeesOf(done[k := m[k]]) == PayeesOf(done) + {m[k].owner}
    ensures m - done.Keys - {k} == m - done[k := m[k]].Keys
  {
    forall x | x in PayeesOf(done) ensures x in PayeesOf(done[k := m[k]]) {
      var j :| j in done && done[j].owner == x;
      assert done[k := m[k]][j].owner == x;
    }
    assert done[k := m[k]][k].owner == m[k].owner;
  }

  lemma {:induction false} PayNext(p: Params, s: State, t: State, h: nat, k: Hash, done: map<Hash, Pending>)
    requires k in s.rewards && k !in done && PaidOut(p, h, s, t, done)
    ensures PaidOut(p, h, s, PaidAt(t, k), done[k := s.rewards[k]])
  {
    PayoutKeeps(p, t, h, k);
    PayeesNext(s.rewards, done, k);
    HoldingsTrans(s, t, PaidAt(t, k));
  }

  /** Rewards that are to be paid, and those that have been. */
  ghost predicate Paying(m: map<Hash, Pending>, height: nat, todo: set<Hash>, done: map<Hash, Pending>)
  {
    && todo + done.Keys == Matured(m, height).Keys && todo !! done.Keys
    && forall k :: k in done ==> k in m && done[k] == m[k]
  }

  lemma {:induction false} PayingNext(m: map<Hash, Pending>, height: nat, todo: set<Hash>, done: map<Hash, Pending>,
                                      k: Hash)
    requires Paying(m, height, todo, done) && k in todo
    ensures k in m && k !in done && Paying(m, height, todo - {k}, done[k := m[k]])
  {
  }

  lemma {:induction false} PayingAll(m: map<Hash, Pending>, height: nat)
    ensures Paying(m, height, Matured(m, height).Keys, map[]) && m - {} == m
  {
  }

  lemma {:induction false} PaidNone(p: Params, s: State, h: nat)
    requires Ready(p, h, s)
    ensures PaidOut(p, h, s, s, map[])
  {
    assert s.rewards - {} == s.rewards;
  }

  lemma {:induction false} AllPaid(m: map<Hash, Pending>, height: nat, done: map<Hash, Pending>)
    requires Paying(m, height, {}, done)
    ensures done == Matured(m, height) && m - done.Keys == Unmatured(m, height)
  {
  }

  /** Paying the matured rewards, one after the other. */
  lemma {:induction false} PayoutsExist(p: Params, s: State, h: nat, height: nat) returns (t: State)
    requires Ready(p, h, s)
    ensures PaidOut(p, h, s, t, Matured(s.rewards, height)) && t.rewards == Unmatured(s.rewards, height)
  {
    t := s;
    var todo, done: map<Hash, Pending> := Matured(s.rewards, height).Keys, map[];
    PaidNone(p, s, h);
    PayingAll(s.rewards, height);
    while todo != {}
      invariant PaidOut(p, h, s, t, done) && Paying(s.rewards, height, todo, done)
    {
      var k :| k in todo;
      PayingNext(s.rewards, height, todo, done, k);
      PayNext(p, s, t, h, k, done);
      t, todo, done := PaidAt(t, k), todo - {k}, done[k := s.rewards[k]];
    }
    AllPaid(s.rewards, height, done);
  }

  /** Pays out every reward whose maturity has come; each credit is in range. */
  method MatureRewards(p: Params, s: State, h: nat, height: nat) returns (r: Result<State>)
    requires Ready(p, h, s)
    ensures r.Ok? && PaidOut(p, h, s, r.value, Matured(s.rewards, height))
    ensures r.value.rewards == Unmatured(s.rewards, height)
  {
    var t, todo := s, Matured(s.rewards, height).Keys;
    ghost var done: map<Hash, Pending> := map[];
    PaidNone(p, s, h);
    PayingAll(s.rewards, height);
    while todo != {}
      invariant PaidOut(p, h, s, t, done) && Paying(s.rewards, height, todo, done)
    {
      var k :| k in todo;
      PayingNext(s.rewards, height, todo, done, k);
      PayNext(p, s, t, h, k, done);
      var paid := PayOut(p, t, h, k);
      t, todo, done := paid.value, todo - {k}, done[k := s.rewards[k]];
    }
    AllPaid(s.rewards, height, done);
    r := Ok(t);
  }

  // ---------- the transactions ----------

  ghost function FeeSum(p: Params, txs: seq<Tx>, n: nat): nat
    requires n <= |txs|
  {
    if n == 0 then 0 else FeeSum(p, txs, n - 1) + FeeOf(p, txs[n - 1])
  }

  type Step = (State, Tx) -> Result<State>

  /** One transaction at one height. */
  function StepAt(p: Params, h: nat): Step
    requires p.Valid()
  {
    (t: State, tx: Tx) requires p.Valid() => ApplyTx(p, t, h, tx)
  }

  /** The state after the first n steps, or the first error. */
  ghost function Ran<A>(step: (State, A) -> Result<State>, s: State, xs: seq<A>, n: nat): Result<State>
    requires n <= |xs|
  {
    if n == 0 then Ok(s)
    else match Ran(step, s, xs, n - 1)
      case Err(c) => Err(c)
      case Ok(t) => step(t, xs[n - 1])
  }

  lemma {:induction false} RanStops<A>(step: (State, A) -> Result<State>, s: State, xs: seq<A>, n: nat, m: nat)
    requires n <= m <= |xs| && Ran(step, s, xs, n).Err?
    ensures Ran(step, s, xs, m) == Ran(step, s, xs, n)
  {
    if n < m { RanStops(step, s, xs, n, m - 1); }
  }

  /** One more transaction: its fee is all that leaves, and its errors are its own. */
  ghost predicate StepKeeps(p: Params, s: State, h: nat, step: Step, t: State, spent: nat, tx: Tx)
  {
    Kept(p, h, s, t, spent) ==>
      var r := step(t, tx);
      (r.Ok? ==> Kept(p, h, s, r.value, spent + FeeOf(p, tx))) && (r.Err? ==> Benign(r.code))
  }

  lemma {:induction false} ApplyTxKeeps(p: Params, s: State, h: nat, t: State, spent: nat, tx: Tx)
    requires Ready(p, h, s)
    ensures StepKeeps(p, s, h, StepAt(p, h), t, spent, tx)
  {
    if Kept(p, h, s, t, spent) { TransactionKeeps(p, h, t, tx); }
  }

  lemma {:induction false} StepsKeep(p: Params, s: State, h: nat, step: Step, txs: seq<Tx>, n: nat)
    requires n <= |txs| && Kept(p, h, s, s, 0)
    requires forall t, spent, tx :: StepKeeps(p, s, h, step, t, spent, tx)
    ensures var r := Ran(step, s, txs, n);
            (r.Ok? ==> Kept(p, h, s, r.value, FeeSum(p, txs, n))) && (r.Err? ==> Benign(r.code))
  {
    if n > 0 {
      StepsKeep(p, s, h, step, txs, n - 1);
      var before := Ran(step, s, txs, n - 1);
      if before.Ok? { assert StepKeeps(p, s, h, step, before.value, FeeSum(p, txs, n - 1), txs[n - 1]); }
    }
  }

  /** Over any run of transactions, what leaves the state is exactly the fees collected. */
  lemma {:induction false} RanKeeps(p: Params, s: State, h: nat, txs: seq<Tx>)
    requires Ready(p, h, s)
    ensures var r := Ran(StepAt(p, h), s, txs, |txs|);
            (r.Ok? ==> Kept(p, h, s, r.value, FeeSum(p, txs, |txs|))) && (r.Err? ==> Benign(r.code))
  {
    forall t, spent, tx ensures StepKeeps(p, s, h, StepAt(p, h), t, spent, tx) { ApplyTxKeeps(p, s, h, t, spent, tx); }
    StepsKeep(p, s, h, StepAt(p, h), txs, |txs|);
  }

  function Receipts(p: Params, txs: seq<Tx>): seq<Entry>
  {
    seq(|txs|, i requires 0 <= i < |txs| => Applied(txs[i], FeeOf(p, txs[i])))
  }

  method RunTransactions(p: Params, step: Step, s: State, txs: seq<Tx>)
    returns (r: Result<State>, fees: nat, receipts: seq<Entry>)
    ensures r == Ran(step, s, txs, |txs|)
    ensures r.Ok? ==> fees == FeeSum(p, txs, |txs|)
    ensures r.Ok? ==> receipts == Receipts(p, txs)
  {
    var t := s;
    fees, receipts := 0, [];
    var i := 0;
    while i < |txs|
      invariant 0 <= i <= |txs| && fees == FeeSum(p, txs, i) && Ran(step, s, txs, i) == Ok(t)
      invariant receipts == Receipts(p, txs)[..i]
    {
      var next := step(t, txs[i]);
      if next.Err? {
        RanStops(step, s, txs, i + 1, |txs|);
        return next, fees, receipts;
      }
      t, fees := next.value, fees + FeeOf(p, txs[i]);
      receipts := receipts + [Applied(txs[i], FeeOf(p, txs[i]))];
      i := i + 1;
    }
    r := Ok(t);
  }

  // ---------- the block ----------

  /** The source's `total_funds`. */
  method AddFunds(s: State) returns (t: nat)
    ensures t == TotalFunds(s)
  {
    var a := AddUp(s.accounts, BalanceOf);
    var e := AddUp(s.escrows, RemainingOf);
    var r := AddUp(s.rewards, AmountOf);
    t := a + e + r;
  }

  function KeyCount(s: State): nat
  {
    |s.accounts| + |s.escrows| + |s.rewards| + |s.contributions| + |s.artifacts| + |s.works| + 2
  }

  /** The miner's reward is booked and the subsidy issued. */
  function Booked(p: Params, s: State, height: nat, amount: nat, subsidy: nat, miner: Hash, parent: Hash): State
  {
    s.(issued := s.issued + subsidy,
       rewards := s.rewards[RewardId(parent, height, miner) := Pending(miner, amount, height + p.rewardMaturity)])
  }

  lemma {:induction false} BookedFunds(p: Params, s: State, height: nat, amount: nat, subsidy: nat, miner: Hash,
                                       parent: Hash)
    requires RewardId(parent, height, miner) !in s.rewards
    ensures TotalFunds(Booked(p, s, height, amount, subsidy, miner, parent)) == TotalFunds(s) + amount
  {
    SumSet(s.rewards, AmountOf, RewardId(parent, height, miner), Pending(miner, amount, height + p.rewardMaturity));
  }

  ghost predicate Closing(p: Params, s: State, height: nat, fees: nat)
  {
    && p.Valid() && TotalFunds(s) + fees == s.issued
    && EscrowsOk(p, s.escrows) && ClearThrough(s.escrows, height)
    && forall k :: k in s.rewards ==> k.RewardId? && k.height < height
  }

  lemma {:induction false} BookedGood(p: Params, s: State, height: nat, fees: nat, subsidy: nat, miner: Hash,
                                      parent: Hash)
    requires Closing(p, s, height, fees) && s.issued + subsidy < U64
    ensures var t := Booked(p, s, height, fees + subsidy, subsidy, miner, parent);
            Good(p, height, t) && TotalFunds(t) == t.issued
  {
    BookedFunds(p, s, height, fees + subsidy, subsidy, miner, parent);
  }

  /** What closing a block should give: no conservation failure is among the outcomes. */
  ghost function Closed(p: Params, s: State, height: nat, fees: nat, subsidy: nat, miner: Hash,
                        parent: Hash): Result<State>
  {
    var t := Booked(p, s, height, fees + subsidy, subsidy, miner, parent);
    if t.issued >= U64 then Err(Range)
    else if !(KeyCount(t) <= p.maxStateKeys && p.entriesFit(t)) then Err(Limit)
    else Ok(t)
  }

  lemma {:induction false} ClosedGood(p: Params, s: State, height: nat, fees: nat, subsidy: nat, miner: Hash,
                                      parent: Hash)
    requires Closing(p, s, height, fees)
    ensures var r := Closed(p, s, height, fees, subsidy, miner, parent);
            r.Ok? ==> Good(p, height, r.value) && r.value.issued == s.issued + subsidy
  {
    if s.issued + subsidy < U64 { BookedGood(p, s, height, fees, subsidy, miner, parent); }
  }

  /** Books the block reward and the subsidy; the conservation check it then makes never fails. */
  method CloseBlock(p: Params, s: State, height: nat, fees: nat, subsidy: nat, miner: Hash, parent: Hash)
    returns (r: Result<State>)
    requires Closing(p, s, height, fees)
    ensures r == Closed(p, s, height, fees, subsidy, miner, parent)
    ensures r.Ok? ==> Good(p, height, r.value)
  {
    if s.issued + subsidy >= U64 { return Err(Range); }
    var t := Booked(p, s, height, fees + subsidy, subsidy, miner, parent);
    BookedGood(p, s, height, fees, subsidy, miner, parent);
    var total := AddFunds(t);
    if total != t.issued { return Err(Conservation); }
    if !(KeyCount(t) <= p.maxStateKeys && p.entriesFit(t)) { return Err(Limit); }
    r := Ok(t);
  }

  function DueIn(m: map<Key, Escrow>, height: nat): map<Key, Escrow> { map k | k in DueBy(m, height) :: m[k] }

  /** An account with what its due objects still held and its matured rewards added to its balance. */
  ghost function OpenedAccount(s: State, m: map<Key, Escrow>, height: nat, a: Hash): Account
  {
    Account(Get(s, a).balance + Sum(DueIn(m, height), HeldFor(a)) + Sum(Matured(s.rewards, height), OwedTo(a)),
            Get(s, a).nonce)
  }

  /** The accounts there were, and those refunded or paid. */
  ghost function OpenedAccounts(s: State, m: map<Key, Escrow>, height: nat): map<Hash, Account>
  {
    map a | a in s.accounts.Keys + OwnersOf(m, DueBy(m, height)) + PayeesOf(Matured(s.rewards, height)) ::
      OpenedAccount(s, m, height, a)
  }

  /** The state the transactions of a block start from. */
  ghost function Opened(p: Params, s: State, height: nat): State
    requires p.Valid()
  {
    var kept := Retire(p, s, height);
    kept.(accounts := OpenedAccounts(s, kept.escrows, height),
          rewards := Unmatured(s.rewards, height),
          escrows := ExpiredIn(kept.escrows, DueBy(kept.escrows, height)))
  }

  lemma {:induction false} DueSplit(m: map<Key, Escrow>, height: nat, a: Hash)
    ensures Sum(m, HeldFor(a)) == Sum(DueIn(m, height), HeldFor(a)) + Sum(ExpiredIn(m, DueBy(m, height)), HeldFor(a))
  {
    SumSplit(m, DueIn(m, height), ExpiredIn(m, DueBy(m, height)), HeldFor(a));
  }

  lemma {:induction false} MaturedSplit(m: map<Hash, Pending>, height: nat, a: Hash)
    ensures Sum(m, OwedTo(a)) == Sum(Matured(m, height), OwedTo(a)) + Sum(Unmatured(m, height), OwedTo(a))
  {
    SumSplit(m, Matured(m, height), Unmatured(m, height), OwedTo(a));
  }

  /** Nobody's holdings change, so every balance is determined. */
  lemma {:induction false} BalanceFixed(s: State, m: map<Key, Escrow>, height: nat, t: State, a: Hash)
    requires Holdings(t, a) == Holdings(s, a) && Get(t, a).nonce == Get(s, a).nonce
    requires Sum(m, HeldFor(a)) == Sum(s.escrows, HeldFor(a))
    requires t.escrows == ExpiredIn(m, DueBy(m, height)) && t.rewards == Unmatured(s.rewards, height)
    ensures Get(t, a) == OpenedAccount(s, m, height, a)
  {
    DueSplit(m, height, a);
    MaturedSplit(s.rewards, height, a);
  }

  lemma {:induction false} AccountsFixed(s: State, m: map<Key, Escrow>, height: nat, t: State)
    requires SameHoldings(s, t) && forall a :: Sum(m, HeldFor(a)) == Sum(s.escrows, HeldFor(a))
    requires t.escrows == ExpiredIn(m, DueBy(m, height)) && t.rewards == Unmatured(s.rewards, height)
    requires t.accounts.Keys == s.accounts.Keys + OwnersOf(m, DueBy(m, height)) + PayeesOf(Matured(s.rewards, height))
    ensures t.accounts == OpenedAccounts(s, m, height)
  {
    forall a | a in t.accounts ensures t.accounts[a] == OpenedAccount(s, m, height, a) {
      assert Holdings(t, a) == Holdings(s, a);
      BalanceFixed(s, m, height, t, a);
    }
  }

  lemma {:induction false} RetireSums(p: Params, s: State, height: nat)
    requires p.Valid()
    ensures forall a :: Sum(Retire(p, s, height).escrows, HeldFor(a)) == Sum(s.escrows, HeldFor(a))
  {
    forall a ensures Sum(Retire(p, s, height).escrows, HeldFor(a)) == Sum(s.escrows, HeldFor(a)) {
      SumSub(s.escrows, Retire(p, s, height).escrows, HeldFor(a));
    }
  }

  /** What the transactions of block h + 1 may rely on. */
  ghost predicate Started(p: Params, h: nat, s: State, t: State)
  {
    && Ready(p, h + 1, t) && TotalFunds(t) == t.issued == s.issued && SameHoldings(s, t)
    && forall k :: k in t.rewards ==> k.RewardId? && k.height < h + 1
  }

  lemma {:induction false} StartedIs(p: Params, s: State, h: nat, kept: State, u: State, t: State)
    requires Good(p, h, s) && kept == Retire(p, s, h + 1) && Ready(p, h + 1, u)
    requires Refunded(p, h, kept, u, DueBy(kept.escrows, h + 1))
    requires PaidOut(p, h + 1, u, t, Matured(u.rewards, h + 1)) && t.rewards == Unmatured(u.rewards, h + 1)
    ensures t == Opened(p, s, h + 1) && Started(p, h, s, t)
  {
    RetireKeeps(p, h, s, h + 1);
    RetireHolds(p, s, h + 1);
    HoldingsTrans(s, kept, u);
    HoldingsTrans(s, u, t);
    RetireSums(p, s, h + 1);
    AccountsFixed(s, kept.escrows, h + 1, t);
  }

  /** Opening a block loses nothing, whoever computes it. */
  lemma {:induction false} OpenedKeeps(p: Params, s: State, h: nat)
    requires Good(p, h, s)
    ensures Started(p, h, s, Opened(p, s, h + 1))
  {
    RetireKeeps(p, h, s, h + 1);
    var kept := Retire(p, s, h + 1);
    var u := RefundsExist(p, kept, h, DueBy(kept.escrows, h + 1));
    NothingLeftDue(kept.escrows, h + 1);
    var t := PayoutsExist(p, u, h + 1, h + 1);
    StartedIs(p, s, h, kept, u, t);
  }

  /** Retirement, mandatory expiry and maturing rewards, in that order. */
  method OpenBlock(p: Params, s: State, h: nat) returns (t: State, expired: seq<Key>)
    requires Good(p, h, s)
    ensures t == Opened(p, s, h + 1) && Started(p, h, s, t)
    ensures Ascending(p, Retire(p, s, h + 1).escrows, expired)
    ensures forall k :: k in expired <==> k in DueBy(Retire(p, s, h + 1).escrows, h + 1)
  {
    RetireKeeps(p, h, s, h + 1);
    t, expired := ExpireDue(p, Retire(p, s, h + 1), h);
    ghost var refunded := t;
    var matured := MatureRewards(p, t, h + 1, h + 1);
    t := matured.value;
    StartedIs(p, s, h, Retire(p, s, h + 1), refunded, t);
  }

  /** The close of a block whose transactions ran to this result. */
  ghost function ClosedAfter(p: Params, run: Result<State>, height: nat, b: BlockInput): Result<State>
    requires p.Valid()
  {
    match run
    case Err(c) => Err(c)
    case Ok(u) => Closed(p, u, height, FeeSum(p, b.transactions, |b.transactions|), Subsidy(p, height), b.miner,
                         b.parent)
  }

  /** The transactions and the close of a block, from its opened state. */
  ghost function Executed(p: Params, t: State, height: nat, b: BlockInput): Result<State>
    requires p.Valid()
  {
    ClosedAfter(p, Ran(StepAt(p, height), t, b.transactions, |b.transactions|), height, b)
  }

  lemma {:induction false} ClosedAfterGood(p: Params, t: State, h: nat, run: Result<State>, b: BlockInput)
    requires Ready(p, h, t) && TotalFunds(t) == t.issued
    requires forall k :: k in t.rewards ==> k.RewardId? && k.height < h
    requires run.Ok? ==> Kept(p, h, t, run.value, FeeSum(p, b.transactions, |b.transactions|))
    ensures var r := ClosedAfter(p, run, h, b); r.Ok? ==>
              Good(p, h, r.value) && r.value.issued == t.issued + Subsidy(p, h)
  {
    if run.Ok? {
      ClosedGood(p, run.value, h, FeeSum(p, b.transactions, |b.transactions|), Subsidy(p, h), b.miner, b.parent);
    }
  }

  /** A block that closes leaves a good state, with the subsidy issued. */
  lemma {:induction false} ExecutedGood(p: Params, t: State, h: nat, b: BlockInput)
    requires Ready(p, h, t) && TotalFunds(t) == t.issued
    requires forall k :: k in t.rewards ==> k.RewardId? && k.height < h
    ensures var r := Executed(p, t, h, b); r.Ok? ==> Good(p, h, r.value) && r.value.issued == t.issued + Subsidy(p, h)
  {
    RanKeeps(p, t, h, b.transactions);
    ClosedAfterGood(p, t, h, Ran(StepAt(p, h), t, b.transactions, |b.transactions|), b);
  }

  method FinishBlock(p: Params, t: State, h: nat, b: BlockInput) returns (r: Result<State>, receipts: seq<Entry>)
    requires Ready(p, h, t) && TotalFunds(t) == t.issued
    requires forall k :: k in t.rewards ==> k.RewardId? && k.height < h
    ensures r == Executed(p, t, h, b)
    ensures r.Ok? ==> Good(p, h, r.value) && r.value.issued == t.issued + Subsidy(p, h)
    ensures r.Ok? ==> receipts == Receipts(p, b.transactions)
    ensures r.Err? ==> r.code != Conservation && (r.code == Range ==> t.issued + Subsidy(p, h) >= U64)
  {
    RanKeeps(p, t, h, b.transactions);
    var run, fees, entries := RunTransactions(p, StepAt(p, h), t, b.transactions);
    receipts := entries;
    if run.Err? { return Err(run.code), receipts; }
    r := CloseBlock(p, run.value, h, fees, Subsidy(p, h), b.miner, b.parent);
  }

  /** The one result of a block. */
  ghost function BlockResult(p: Params, s: State, height: nat, b: BlockInput): Result<State>
    requires p.Valid()
  {
    if |b.transactions| > p.maxTransactions then Err(Limit) else Executed(p, Opened(p, s, height), height, b)
  }

  /** The invariant, as a fact about the result: whoever executes a block on a good parent gets a good state. */
  lemma {:induction false} BlockGood(p: Params, s: State, h: nat, b: BlockInput)
    requires Good(p, h, s)
    ensures var r := BlockResult(p, s, h + 1, b); r.Ok? ==>
              Good(p, h + 1, r.value) && r.value.issued == s.issued + Subsidy(p, h + 1)
  {
    OpenedKeeps(p, s, h);
    ExecutedGood(p, Opened(p, s, h + 1), h + 1, b);
  }

  function Expiries(keys: seq<Key>): seq<Entry>
  {
    if keys == [] then [] else [Expiry(keys[0])] + Expiries(keys[1..])
  }

  /** One receipt for each object due, in order, and then one for each transaction. */
  ghost predicate ReceiptsOk(p: Params, m: map<Key, Escrow>, height: nat, b: BlockInput, receipts: seq<Entry>)
  {
    exists due ::
      && Ascending(p, m, due) && (forall k :: k in due <==> k in DueBy(m, height))
      && receipts == Expiries(due) + Receipts(p, b.transactions)
  }

  lemma {:induction false} ReceiptsAre(p: Params, m: map<Key, Escrow>, height: nat, b: BlockInput, due: seq<Key>)
    requires Ascending(p, m, due) && forall k :: k in due <==> k in DueBy(m, height)
    ensures ReceiptsOk(p, m, height, b, Expiries(due) + Receipts(p, b.transactions))
  {
  }

  /** The receipts of a block are determined: their root is part of the header. */
  lemma {:induction false} ReceiptsUnique(p: Params, m: map<Key, Escrow>, height: nat, b: BlockInput, x: seq<Entry>,
                                          y: seq<Entry>)
    requires p.Valid() && ReceiptsOk(p, m, height, b, x) && ReceiptsOk(p, m, height, b, y)
    ensures x == y
  {
    var due :| Ascending(p, m, due) && (forall k :: k in due <==> k in DueBy(m, height))
               && x == Expiries(due) + Receipts(p, b.transactions);
    var same :| Ascending(p, m, same) && (forall k :: k in same <==> k in DueBy(m, height))
                && y == Expiries(same) + Receipts(p, b.transactions);
    AscendingUnique(p, m, due, same);
  }

  /**
   One block on a good parent.  Conservation never fails, a balance is never out of range,
   and RANGE is only ever reported when the issued supply itself would leave u64.
   */
  method ExecuteBlock(p: Params, s: State, h: nat, b: BlockInput) returns (r: Result<Outcome>)
    requires Good(p, h, s)
    ensures r.Ok? ==> Good(p, h + 1, r.value.state) && r.value.state.issued == s.issued + Subsidy(p, h + 1)
    ensures r.Err? ==> r.code != Conservation && (r.code == Range ==> s.issued + Subsidy(p, h + 1) >= U64)
    ensures BlockResult(p, s, h + 1, b) == match r case Ok(o) => Ok(o.state) case Err(c) => Err(c)
    ensures r.Ok? ==> ReceiptsOk(p, Retire(p, s, h + 1).escrows, h + 1, b, r.value.receipts)
  {
    if |b.transactions| > p.maxTransactions { return Err(Limit); }
    var t, expired := OpenBlock(p, s, h);
    var done, receipts := FinishBlock(p, t, h + 1, b);
    if done.Err? { return Err(done.code); }
    ReceiptsAre(p, Retire(p, s, h + 1).escrows, h + 1, b, expired);
    r := Ok(Outcome(done.value, Expiries(expired) + receipts));
  }
}
