/** The read-only audits of a data-availability store: loops that accept exactly the consistent tables. */
module DaAudit {
  import opened DaCommittee
  import opened MapSums
  import opened DaTables

  // ---------- the attestation journal ----------

  /** Everything the journal audit checks of one entry except its place in the sequence. */
  predicate EntryChecked(c: Config, t: Tables, k: Coordinate, n: Entry)
  {
    && EntryOk(c, t, k, n) && BodyOk(c.rules, c.committee, n.body)
    && t.batches[n.body.batch.e].envelope == n.body.batch.e
    && Authored(c, n.body.batch.e, t.batches[n.body.batch.e].author)
  }

  ghost predicate JournalRight(c: Config, t: Tables)
  {
    && (forall k {:trigger EntryChecked(c, t, k, t.journal[k])} :: k in t.journal ==>
         EntryChecked(c, t, k, t.journal[k]))
    && OrdinalsExact(t.journal, t.watermark)
  }

  ghost predicate Distinct(j: map<Coordinate, Entry>)
  {
    forall k, l :: k in j && l in j && j[k].body.ordinal == j[l].body.ordinal ==> k == l
  }

  /** Distinct ordinals in (lo, hi] are at most hi - lo many. */
  lemma {:induction false} OrdinalCount(j: map<Coordinate, Entry>, lo: nat, hi: nat)
    requires lo <= hi && Distinct(j) && forall k :: k in j ==> lo < j[k].body.ordinal <= hi
    ensures |j| <= hi - lo
    decreases hi - lo
  {
    if lo == hi {
      assert j.Keys == {};
    } else if k :| k in j && j[k].body.ordinal == hi {
      RemoveShrinks(j, k);
      OrdinalCount(j - {k}, lo, hi - 1);
    } else {
      OrdinalCount(j, lo, hi - 1);
    }
  }

  /** With the first `last` entries read in order, any ordinal but the next one means the sequence is broken. */
  lemma {:induction false} OrdinalGap(j: map<Coordinate, Entry>, n: nat, rest: map<Coordinate, Entry>, last: nat,
                                      k: Coordinate)
    requires k in rest && |j| == |rest| + last && rest.Keys <= j.Keys && forall x :: x in rest ==> rest[x] == j[x]
    requires forall x :: x in j && x !in rest ==> 1 <= j[x].body.ordinal <= last
    requires forall x :: x in rest ==> rest[k].body.ordinal <= rest[x].body.ordinal
    requires rest[k].body.ordinal != last + 1
    ensures !OrdinalsExact(j, n)
  {
    if OrdinalsExact(j, n) {
      if rest[k].body.ordinal > last + 1 {
        OrdinalCount(rest, last + 1, n);
      } else {
        var taken := j - (rest.Keys - {k});
        TakenSize(j, rest, k);
        OrdinalCount(taken, 0, last);
      }
    }
  }

  lemma {:induction false} TakenSize(j: map<Coordinate, Entry>, rest: map<Coordinate, Entry>, k: Coordinate)
    requires k in rest && rest.Keys <= j.Keys
    ensures |j - (rest.Keys - {k})| == |j| - |rest| + 1
  {
    assert (j - (rest.Keys - {k})).Keys == j.Keys - (rest.Keys - {k});
    assert |rest.Keys - {k}| == |rest| - 1;
    assert |j.Keys| == |j|;
    SubtractSize(j.Keys, rest.Keys - {k});
  }

  lemma {:induction false} SubtractSize<T>(a: set<T>, b: set<T>)
    requires b <= a
    ensures |a - b| == |a| - |b|
  {
    assert a == (a - b) + b && (a - b) !! b;
  }

  lemma {:induction false} LowestOrdinal(rest: map<Coordinate, Entry>) returns (k: Coordinate)
    requires rest.Keys != {}
    ensures k in rest && forall x :: x in rest ==> rest[k].body.ordinal <= rest[x].body.ordinal
    decreases |rest|
  {
    k :| k in rest;
    if (rest - {k}).Keys != {} {
      RemoveShrinks(rest, k);
      var l := LowestOrdinal(rest - {k});
      forall x | x in rest ensures x == k || x in rest - {k} { }
      if rest[l].body.ordinal < rest[k].body.ordinal { k := l; }
    } else {
      assert rest.Keys == (rest - {k}).Keys + {k};
    }
  }

  /** The ordinals outside `rest` are distinct and, with the count, exactly 1..last. */
  ghost predicate ReadInOrder(j: map<Coordinate, Entry>, rest: map<Coordinate, Entry>, last: nat)
  {
    && rest.Keys <= j.Keys && (forall x :: x in rest ==> rest[x] == j[x]) && |j| == |rest| + last
    && (forall x :: x in j && x !in rest ==> 1 <= j[x].body.ordinal <= last)
    && (forall x, y ::
          x in j && x !in rest && y in j && y !in rest && j[x].body.ordinal == j[y].body.ordinal ==> x == y)
  }

  lemma {:induction false} ReadNext(j: map<Coordinate, Entry>, rest: map<Coordinate, Entry>, last: nat, k: Coordinate)
    requires ReadInOrder(j, rest, last) && k in rest && rest[k].body.ordinal == last + 1
    ensures ReadInOrder(j, rest - {k}, last + 1) && |rest - {k}| < |rest|
  {
    RemoveShrinks(rest, k);
  }

  lemma {:induction false} ReadAll(j: map<Coordinate, Entry>, rest: map<Coordinate, Entry>, last: nat, n: nat)
    requires ReadInOrder(j, rest, last) && rest.Keys == {}
    ensures OrdinalsExact(j, n) <==> last == n
  {
    assert |rest| == |rest.Keys| == 0;
  }

  ghost predicate CheckedOutside(c: Config, t: Tables, rest: map<Coordinate, Entry>)
  {
    forall k {:trigger EntryChecked(c, t, k, t.journal[k])} :: k in t.journal && k !in rest ==>
      EntryChecked(c, t, k, t.journal[k])
  }

  method NextEntry(rest: map<Coordinate, Entry>) returns (k: Coordinate)
    requires rest.Keys != {}
    ensures k in rest && forall x :: x in rest ==> rest[k].body.ordinal <= rest[x].body.ordinal
  {
    ghost var lowest := LowestOrdinal(rest);
    k :| k in rest && forall x :: x in rest ==> rest[k].body.ordinal <= rest[x].body.ordinal;
  }

  /** The journal audit, run before every write: sorted entries must carry exactly the ordinals 1..watermark. */
  method AuditJournal(c: Config, t: Tables) returns (ok: bool)
    ensures ok <==> JournalRight(c, t)
  {
    var rest, last := t.journal, 0;
    while rest.Keys != {}
      invariant ReadInOrder(t.journal, rest, last) && CheckedOutside(c, t, rest)
      decreases |rest|
    {
      var k := NextEntry(rest);
      if !EntryChecked(c, t, k, rest[k]) { return false; }
      if rest[k].body.ordinal != last + 1 {
        OrdinalGap(t.journal, t.watermark, rest, last, k);
        return false;
      }
      ReadNext(t.journal, rest, last, k);
      rest, last := rest - {k}, last + 1;
    }
    ReadAll(t.journal, rest, last, t.watermark);
    ok := last == t.watermark;
  }

  /** In a sound store the journal audit never fails. */
  lemma {:induction false} SoundJournal(c: Config, t: Tables)
    requires Sound(c, t)
    ensures JournalRight(c, t)
  {
    forall k | k in t.journal ensures EntryChecked(c, t, k, t.journal[k]) {
      assert EntryOk(c, t, k, t.journal[k]);
      assert RowOk(c, t.journal[k].body.batch.e, t.batches[t.journal[k].body.batch.e]);
    }
  }

  // ---------- accounting ----------

  predicate RowChecked(c: Config, e: Envelope, r: Row)
  {
    Fresh(r) && r.envelope == e && Authored(c, e, r.author)
  }

  ghost predicate AccountingRight(c: Config, t: Tables)
  {
    AllChecked(c, t.batches) && QueueRight(t) && AuthorsRight(t)
  }

  ghost predicate ExpectedOk(done: map<Envelope, Row>, expected: map<Bytes, AuthorState>)
  {
    forall a {:trigger AuthorRight(done, expected, a)} :: AuthorRight(done, expected, a)
  }

  /** Two accountings of the same rows agree. */
  lemma {:induction false} AccountingUnique(rows: map<Envelope, Row>, x: map<Bytes, AuthorState>,
                                            y: map<Bytes, AuthorState>)
    requires ExpectedOk(rows, x) && ExpectedOk(rows, y)
    ensures x == y
  {
    forall a ensures (a in x <==> a in y) && (a in x ==> x[a] == y[a]) {
      assert AuthorRight(rows, x, a);
      assert AuthorRight(rows, y, a);
      SameAuthor(rows, x, y, a);
    }
  }

  lemma {:induction false} SameAuthor(rows: map<Envelope, Row>, x: map<Bytes, AuthorState>, y: map<Bytes, AuthorState>,
                                      a: Bytes)
    requires AuthorRight(rows, x, a) && AuthorRight(rows, y, a)
    ensures (a in x <==> a in y) && (a in x ==> x[a] == y[a])
  {
    if a in x { var e :| e in rows && Wrote(e, a, x[a].last); }
    if a in y { var e :| e in rows && Wrote(e, a, y[a].last); }
  }

  function Counted(expected: map<Bytes, AuthorState>, r: Row): AuthorState
  {
    var a := r.envelope.author;
    var was := if a in expected then expected[a] else AuthorState(0, 0, 0);
    AuthorState(if r.envelope.sequence > was.last then r.envelope.sequence else was.last,
                was.batches + Outstanding(a)(r), was.bytes + OutstandingSize(a)(r))
  }

  lemma {:induction false} CountAuthor(done: map<Envelope, Row>, expected: map<Bytes, AuthorState>, e: Envelope, r: Row,
                                       a: Bytes)
    requires AuthorRight(done, expected, a) && e !in done && r.envelope == e
    requires forall f :: f in done ==> done[f].envelope == f
    ensures AuthorRight(done[e := r], expected[e.author := Counted(expected, r)], a)
  {
    SumSet(done, Outstanding(a), e, r);
    SumSet(done, OutstandingSize(a), e, r);
    var next := expected[e.author := Counted(expected, r)];
    if a !in expected {
      SumNothing(done, Outstanding(a));
      SumNothing(done, OutstandingSize(a));
    }
    if a in next { CountLast(done, expected, e, r, a); }
  }

  lemma {:induction false} CountLast(done: map<Envelope, Row>, expected: map<Bytes, AuthorState>, e: Envelope, r: Row,
                                     a: Bytes)
    requires AuthorRight(done, expected, a) && e !in done && r.envelope == e
    requires a in expected || a == e.author
    ensures LastRight(done[e := r], a, expected[e.author := Counted(expected, r)][a].last)
  {
    var next := done[e := r];
    if a in expected {
      var f :| f in done && Wrote(f, a, expected[a].last);
      assert f in next && Wrote(f, a, expected[a].last);
    }
    assert e in next && Wrote(e, e.author, e.sequence);
  }

  lemma {:induction false} CountNext(done: map<Envelope, Row>, expected: map<Bytes, AuthorState>, e: Envelope, r: Row,
                                     next: map<Envelope, Row>, counted: map<Bytes, AuthorState>)
    requires ExpectedOk(done, expected) && e !in done && r.envelope == e
    requires forall f :: f in done ==> done[f].envelope == f
    requires next == done[e := r] && counted == expected[e.author := Counted(expected, r)]
    ensures ExpectedOk(next, counted)
  {
    forall a ensures AuthorRight(next, counted, a) {
      assert AuthorRight(done, expected, a);
      CountAuthor(done, expected, e, r, a);
    }
  }

  /** The totals of the rows counted so far. */
  ghost predicate Tallied(c: Config, done: map<Envelope, Row>, queueBatches: nat, queueBytes: nat,
                          expected: map<Bytes, AuthorState>)
  {
    && AllChecked(c, done)
    && queueBatches == Sum(done, QueuedOne) && queueBytes == Sum(done, QueuedSize) && ExpectedOk(done, expected)
  }

  lemma {:induction false} TallyNone(c: Config)
    ensures Tallied(c, map[], 0, 0, map[])
  {
    var done: map<Envelope, Row>, expected: map<Bytes, AuthorState> := map[], map[];
    forall a ensures AuthorRight(done, expected, a) { }
  }

  lemma {:induction false} TallyNext(c: Config, done: map<Envelope, Row>, queueBatches: nat, queueBytes: nat,
                                     expected: map<Bytes, AuthorState>, e: Envelope, r: Row)
    requires Tallied(c, done, queueBatches, queueBytes, expected) && e !in done && RowChecked(c, e, r)
    ensures Tallied(c, done[e := r], queueBatches + QueuedOne(r), queueBytes + QueuedSize(r),
                    expected[e.author := Counted(expected, r)])
  {
    SumSet(done, QueuedOne, e, r);
    SumSet(done, QueuedSize, e, r);
    forall f | f in done ensures done[f].envelope == f { assert RowChecked(c, f, done[f]); }
    CountNext(done, expected, e, r, done[e := r], expected[e.author := Counted(expected, r)]);
    var next := done[e := r];
    forall f | f in next ensures RowChecked(c, f, next[f]) { if f != e { assert RowChecked(c, f, done[f]); } }
  }

  lemma {:induction false} TallyDecides(c: Config, t: Tables, queueBatches: nat, queueBytes: nat,
                                        expected: map<Bytes, AuthorState>)
    requires Tallied(c, t.batches, queueBatches, queueBytes, expected)
    ensures AccountingRight(c, t) <==>
              t.queueBatches == queueBatches && t.queueBytes == queueBytes && t.authors == expected
  {
    if ExpectedOk(t.batches, t.authors) { AccountingUnique(t.batches, t.authors, expected); }
  }

  ghost predicate AllChecked(c: Config, rows: map<Envelope, Row>)
  {
    forall e {:trigger RowChecked(c, e, rows[e])} :: e in rows ==> RowChecked(c, e, rows[e])
  }

  method CountRow(c: Config, ghost done: map<Envelope, Row>, queueBatches: nat, queueBytes: nat,
                  expected: map<Bytes, AuthorState>, e: Envelope, r: Row)
    returns (nextBatches: nat, nextBytes: nat, counted: map<Bytes, AuthorState>)
    requires Tallied(c, done, queueBatches, queueBytes, expected) && e !in done && RowChecked(c, e, r)
    ensures Tallied(c, done[e := r], nextBatches, nextBytes, counted)
  {
    TallyNext(c, done, queueBatches, queueBytes, expected, e, r);
    nextBatches, nextBytes := queueBatches, queueBytes;
    if Queued(r) { nextBatches, nextBytes := nextBatches + 1, nextBytes + r.size; }
    counted := expected[e.author := Counted(expected, r)];
  }

  /** One pass over the rows; it stops at a row that does not check out. */
  method Recount(c: Config, rows: map<Envelope, Row>)
    returns (ok: bool, queueBatches: nat, queueBytes: nat, expected: map<Bytes, AuthorState>)
    ensures ok ==> Tallied(c, rows, queueBatches, queueBytes, expected)
    ensures !ok ==> !AllChecked(c, rows)
  {
    queueBatches, queueBytes, expected := 0, 0, map[];
    var todo := rows.Keys;
    ghost var done: map<Envelope, Row> := map[];
    TallyNone(c);
    while todo != {}
      invariant Split(rows, done, todo)
      invariant Tallied(c, done, queueBatches, queueBytes, expected)
      decreases |todo|
    {
      var e :| e in todo;
      var row := rows[e];
      if !RowChecked(c, e, row) { return false, queueBatches, queueBytes, expected; }
      SplitNext(rows, done, todo, e);
      queueBatches, queueBytes, expected := CountRow(c, done, queueBatches, queueBytes, expected, e, row);
      done, todo := done[e := row], todo - {e};
    }
    SplitAll(rows, done);
    ok := true;
  }

  ghost predicate Split(rows: map<Envelope, Row>, done: map<Envelope, Row>, todo: set<Envelope>)
  {
    && done.Keys !! todo && done.Keys + todo == rows.Keys
    && forall e :: e in done ==> e in rows && done[e] == rows[e]
  }

  lemma {:induction false} SplitNext(rows: map<Envelope, Row>, done: map<Envelope, Row>, todo: set<Envelope>,
                                     e: Envelope)
    requires Split(rows, done, todo) && e in todo
    ensures e in rows && e !in done && Split(rows, done[e := rows[e]], todo - {e})
  {
  }

  lemma {:induction false} SplitAll(rows: map<Envelope, Row>, done: map<Envelope, Row>)
    requires Split(rows, done, {})
    ensures done == rows
  {
  }

  /** Recounts queue and author totals from the rows and compares them with the stored counters. */
  method AuditAccounting(c: Config, t: Tables) returns (ok: bool)
    ensures ok <==> AccountingRight(c, t)
  {
    var whole, queueBatches, queueBytes, expected := Recount(c, t.batches);
    if !whole { return false; }
    TallyDecides(c, t, queueBatches, queueBytes, expected);
    ok := t.queueBatches == queueBatches && t.queueBytes == queueBytes && t.authors == expected;
  }

  /** In a sound store the accounting audit fails only for a row whose content was changed behind its back. */
  lemma {:induction false} SoundAccounting(c: Config, t: Tables)
    requires Sound(c, t)
    ensures AccountingRight(c, t) <==> forall e :: e in t.batches ==> Fresh(t.batches[e])
  {
    forall e | e in t.batches ensures RowChecked(c, e, t.batches[e]) <==> Fresh(t.batches[e]) {
      assert RowOk(c, e, t.batches[e]);
    }
  }
}
