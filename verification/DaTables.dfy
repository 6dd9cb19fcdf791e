/**
 The tables of a data-availability store as values: batch rows, per-author accounting, the
 attestation journal and the metadata counters, with the invariant that ties them together.
 */
module DaTables {
  import opened Wrappers
  import opened DaCommittee
  import opened MapSums

  const U64 := 0x1_0000_0000_0000_0000

  datatype Batch = Batch(envelope: Envelope, content: Bytes)

  // ---------- retention obligations ----------

  datatype Status = Active | Released | Collected

  datatype Obligation = Obligation(batch: Digest, certificate: Digest, version: nat, retainUntil: nat, holdUntil: nat,
                                   status: Status, tombstone: Option<nat>)

  function Rank(s: Status): nat { match s case Active => 0 case Released => 1 case Collected => 2 }

  predicate ObligationOk(o: Obligation)
  {
    && o.retainUntil > 0 && Rank(o.status) <= o.version < U64
    && (o.status == Collected <==> o.tombstone.Some?)
    && (o.tombstone.Some? ==> o.tombstone.value > 0)
  }

  function Minimum(batch: Digest, certificate: Digest, retainUntil: nat): Obligation
  {
    Obligation(batch, certificate, 0, retainUntil, 0, Active, None)
  }

  function Extend(o: Obligation, retainUntil: nat, holdUntil: nat): Result<Obligation>
  {
    if o.status != Active || retainUntil < o.retainUntil || holdUntil < o.holdUntil then Err(RetentionViolation)
    else if o.version + 1 >= U64 then Err(ArithmeticOverflow)
    else Ok(o.(version := o.version + 1, retainUntil := retainUntil, holdUntil := holdUntil))
  }

  function Release(o: Obligation, epoch: nat, height: nat): Result<Obligation>
  {
    if o.status != Active || epoch <= o.retainUntil || height <= o.holdUntil then Err(RetentionViolation)
    else if o.version + 1 >= U64 then Err(ArithmeticOverflow)
    else Ok(o.(version := o.version + 1, status := Released))
  }

  function Collect(o: Obligation, height: nat): Result<Obligation>
  {
    if o.status != Released || o.tombstone.Some? then Err(EarlyCollection)
    else if o.version + 1 >= U64 then Err(ArithmeticOverflow)
    else Ok(o.(version := o.version + 1, status := Collected, tombstone := Some(height)))
  }

  /** An obligation only ever moves forward. */
  predicate Later(o: Obligation, n: Obligation)
  {
    && n.batch == o.batch && n.certificate == o.certificate && o.version <= n.version
    && o.retainUntil <= n.retainUntil && o.holdUntil <= n.holdUntil && Rank(o.status) <= Rank(n.status)
    && (o.version == n.version ==> n == o)
  }

  // ---------- rows ----------

  datatype State = Stored | Unavailable | Certified | GarbageCollected

  /** `sealed` is the content the row checksum was last computed over. */
  datatype Row = Row(envelope: Envelope, author: Author, content: Option<Bytes>, sealed: Option<Bytes>, size: nat,
                     manifest: Digest,
                     state: State, certificate: Option<Certificate>, obligation: Option<Obligation>, repairs: nat)

  datatype Authority = Authority(key: Id, first: nat, last: nat, maxBytes: nat, maxOutstanding: nat)

  /** `exact` says that a batch's content derives its envelope. */
  datatype Config = Config(rules: Rules, committee: Committee, attestor: Id, authorities: map<Bytes, Authority>,
                           maxQueueBatches: nat, maxQueueBytes: nat, exact: Batch -> bool, storeId: nat)
  {
    ghost predicate Valid()
    {
      && rules.Valid() && CommitteeOk(rules, committee) && Find(committee.members, attestor).Some?
      && maxQueueBatches < U64 && maxQueueBytes < U64
      && forall a :: a in authorities ==>
           authorities[a].last < U64 && authorities[a].maxBytes < U64 && authorities[a].maxOutstanding < U64
    }
  }

  datatype AuthorState = AuthorState(last: nat, batches: nat, bytes: nat)
  datatype Entry = Entry(body: Body, signature: Option<Bytes>)

  datatype Tables = Tables(batches: map<Envelope, Row>, authors: map<Bytes, AuthorState>,
                           journal: map<Coordinate, Entry>,
                           sequence: nat, queueBatches: nat, queueBytes: nat, watermark: nat)

  const Empty := Tables(map[], map[], map[], 0, 0, 0, 0)

  /** The committed author signed the envelope, which belongs to this committee. */
  predicate Authored(c: Config, e: Envelope, author: Author)
  {
    && ShapeOk(c.rules, e) && InContext(c.committee, e) && c.rules.authored(author, e)
    && e.author in c.authorities && c.authorities[e.author].key == author.key
  }

  /** The row checksum still matches. */
  predicate Fresh(r: Row) { r.content == r.sealed }

  /** What a full verification of a live row checks. */
  predicate Live(c: Config, e: Envelope, r: Row)
  {
    && Fresh(r) && r.content.Some? && |r.content.value| == r.size
    && r.envelope == e && c.exact(Batch(e, r.content.value)) && Authored(c, e, r.author)
    && r.manifest == OfManifest(e, r.author, r.content.value)
  }

  predicate CertificateBinds(c: Certificate, e: Envelope, author: Author)
  {
    c.envelope == e && c.author == author
  }

  ghost predicate CertifiedOk(c: Config, e: Envelope, r: Row)
  {
    r.certificate.Some? && r.obligation.Some?
    && Accepted(c.rules, c.committee, r.certificate.value) && CertificateBinds(r.certificate.value, e, r.author)
    && ObligationOk(r.obligation.value)
    && r.obligation.value.batch == OfEnvelope(e) && r.obligation.value.certificate == r.certificate.value.id
  }

  predicate HasContent(s: State) { s == Stored || s == Certified }

  ghost predicate RowOk(c: Config, e: Envelope, r: Row)
  {
    && r.envelope == e && Authored(c, e, r.author) && r.repairs < U64
    && r.manifest.OfManifest? && r.manifest == OfManifest(e, r.author, r.manifest.content)
    && c.exact(Batch(e, r.manifest.content)) && r.size == |r.manifest.content| < U64
    && (if HasContent(r.state) then r.content.Some? && r.sealed == Some(r.manifest.content)
        else r.content == r.sealed == None)
    && (r.certificate.Some? ==> CertifiedOk(c, e, r))
    && (r.certificate.None? ==> r.obligation.None? && r.state != Certified && r.state != GarbageCollected)
    && (r.state == Stored ==> r.certificate.None?)
    && (r.state == GarbageCollected <==> r.obligation.Some? && r.obligation.value.status == Collected)
  }

  // ---------- the redundant counters ----------

  predicate Queued(r: Row) { r.state == Stored || r.state == Unavailable }

  function QueuedOne(r: Row): nat { if Queued(r) then 1 else 0 }
  function QueuedSize(r: Row): nat { if Queued(r) then r.size else 0 }
  predicate Counted(a: Bytes, r: Row) { r.envelope.author == a && r.certificate.None? }
  function Outstanding(a: Bytes): Row -> nat { (r: Row) => if Counted(a, r) then 1 else 0 }
  function OutstandingSize(a: Bytes): Row -> nat { (r: Row) => if Counted(a, r) then r.size else 0 }

  ghost predicate QueueRight(t: Tables)
  {
    t.queueBatches == Sum(t.batches, QueuedOne) && t.queueBytes == Sum(t.batches, QueuedSize)
  }

  predicate Wrote(e: Envelope, a: Bytes, n: nat) { e.author == a && e.sequence == n }

  /** The last sequence of an author, and only of authors with rows. */
  ghost predicate LastRight(batches: map<Envelope, Row>, a: Bytes, last: nat)
  {
    && (forall e :: e in batches && e.author == a ==> e.sequence <= last)
    && (exists e :: e in batches && Wrote(e, a, last))
  }

  ghost predicate AuthorRight(batches: map<Envelope, Row>, authors: map<Bytes, AuthorState>, a: Bytes)
  {
    if a in authors then
      && LastRight(batches, a, authors[a].last)
      && authors[a].batches == Sum(batches, Outstanding(a)) && authors[a].bytes == Sum(batches, OutstandingSize(a))
    else forall e :: e in batches ==> e.author != a
  }

  ghost predicate AuthorsRight(t: Tables)
  {
    forall a {:trigger AuthorRight(t.batches, t.authors, a)} :: AuthorRight(t.batches, t.authors, a)
  }

  /** Queue and author quotas. */
  ghost predicate WithinBounds(c: Config, t: Tables)
  {
    && t.queueBatches <= c.maxQueueBatches && t.queueBytes <= c.maxQueueBytes
    && t.sequence < U64 && t.watermark < U64
    && forall a :: a in t.authors ==>
         && a in c.authorities && t.authors[a].last <= c.authorities[a].last
         && t.authors[a].batches <= c.authorities[a].maxOutstanding && t.authors[a].bytes <= c.authorities[a].maxBytes
  }

  // ---------- the attestation journal ----------

  /** One entry: a body of this attestor that binds exactly one stored batch and its manifest. */
  predicate EntryOk(c: Config, t: Tables, k: Coordinate, n: Entry)
  {
    && n.body.batch.OfEnvelope? && n.body.batch.e in t.batches
    && n.body == NewBody(n.body.batch.e, c.attestor, n.body.ordinal, t.batches[n.body.batch.e].manifest)
    && k == CoordinateOf(n.body) && n.body.ordinal > 0
    && (n.signature.Some? ==> AttestationOk(c.rules, c.committee, Signed(n.body, n.signature.value)))
  }

  function Signed(b: Body, signature: Bytes): Attestation { Attestation(b, OfBody(b), STRICT_SCHEME, signature) }

  /** The ordinals are exactly 1..n, each once. */
  ghost predicate OrdinalsExact(journal: map<Coordinate, Entry>, n: nat)
  {
    && |journal| == n
    && (forall k :: k in journal ==> 1 <= journal[k].body.ordinal <= n)
    && (forall k, l :: k in journal && l in journal && journal[k].body.ordinal == journal[l].body.ordinal ==> k == l)
  }

  ghost predicate EntriesOk(c: Config, t: Tables)
  {
    forall k {:trigger EntryOk(c, t, k, t.journal[k])} :: k in t.journal ==> EntryOk(c, t, k, t.journal[k])
  }

  ghost predicate RowsOk(c: Config, t: Tables)
  {
    forall e {:trigger RowOk(c, e, t.batches[e])} :: e in t.batches ==> RowOk(c, e, t.batches[e])
  }

  /** An author sequence binds one batch. */
  ghost predicate OneBatchEach(t: Tables)
  {
    forall e, f :: e in t.batches && f in t.batches && e.author == f.author && e.sequence == f.sequence ==> e == f
  }

  /** The invariant of the store. */
  ghost predicate Sound(c: Config, t: Tables)
  {
    && c.Valid() && RowsOk(c, t) && OneBatchEach(t) && QueueRight(t) && AuthorsRight(t) && WithinBounds(c, t)
    && EntriesOk(c, t) && OrdinalsExact(t.journal, t.watermark)
  }

  lemma {:induction false} EmptySound(c: Config)
    requires c.Valid()
    ensures Sound(c, Empty)
  {
    forall a ensures AuthorRight(Empty.batches, Empty.authors, a) { }
  }

  // ---------- how a store may evolve ----------

  ghost predicate RowKept(s: Row, t: Row)
  {
    && t.envelope == s.envelope && t.author == s.author && t.manifest == s.manifest && t.size == s.size
    && s.repairs <= t.repairs
    && (s.certificate.Some? ==> t.certificate == s.certificate)
    && (s.obligation.Some? ==> t.obligation.Some? && Later(s.obligation.value, t.obligation.value))
    && (s.state == GarbageCollected ==> t == s)
  }

  ghost predicate EntryKept(s: Entry, t: Entry)
  {
    t.body == s.body && (s.signature.Some? ==> t == s)
  }

  /** Nothing certified, attested or collected is ever taken back. */
  ghost predicate Evolves(s: Tables, t: Tables)
  {
    && s.batches.Keys <= t.batches.Keys && s.journal.Keys <= t.journal.Keys
    && (forall e {:trigger RowKept(s.batches[e], t.batches[e])} :: e in s.batches ==>
         RowKept(s.batches[e], t.batches[e]))
    && (forall k {:trigger EntryKept(s.journal[k], t.journal[k])} :: k in s.journal ==>
         EntryKept(s.journal[k], t.journal[k]))
    && s.watermark <= t.watermark && s.sequence <= t.sequence
  }

  /** A row is collected only from the certified state with a released obligation. */
  ghost predicate CollectedFromReleased(s: Tables, t: Tables)
  {
    forall e :: e in t.batches && t.batches[e].state == GarbageCollected ==>
      e in s.batches && (s.batches[e].state == GarbageCollected ||
        (s.batches[e].state == Certified && s.batches[e].obligation.Some?
         && s.batches[e].obligation.value.status == Released))
  }

  ghost predicate Step(s: Tables, t: Tables)
  {
    Evolves(s, t) && CollectedFromReleased(s, t)
  }

  lemma {:induction false} StepRefl(t: Tables)
    ensures Step(t, t)
  {
  }

  lemma {:induction false} EvolvesTrans(s: Tables, t: Tables, u: Tables)
    requires Evolves(s, t) && Evolves(t, u)
    ensures Evolves(s, u)
  {
    forall e | e in s.batches ensures RowKept(s.batches[e], u.batches[e]) {
      assert RowKept(s.batches[e], t.batches[e]);
      assert RowKept(t.batches[e], u.batches[e]);
    }
    forall k | k in s.journal ensures EntryKept(s.journal[k], u.journal[k]) {
      assert EntryKept(s.journal[k], t.journal[k]);
      assert EntryKept(t.journal[k], u.journal[k]);
    }
  }

  // ---------- replacing one row ----------

  /** The row of an existing batch is rewritten; counters move by the difference. */
  ghost predicate Rewrites(s: Tables, t: Tables, e: Envelope, r: Row)
  {
    && e in s.batches && RowKept(s.batches[e], r)
    && t.batches == s.batches[e := r] && t.journal == s.journal && t.watermark == s.watermark
    && t.sequence >= s.sequence
    && t.queueBatches + QueuedOne(s.batches[e]) == s.queueBatches + QueuedOne(r)
    && t.queueBytes + QueuedSize(s.batches[e]) == s.queueBytes + QueuedSize(r)
    && t.authors.Keys == s.authors.Keys
    && (forall a :: a in s.authors && a != e.author ==> t.authors[a] == s.authors[a])
    && (e.author in s.authors ==>
         && t.authors[e.author].last == s.authors[e.author].last
         && t.authors[e.author].batches + Outstanding(e.author)(s.batches[e])
            == s.authors[e.author].batches + Outstanding(e.author)(r)
         && t.authors[e.author].bytes + OutstandingSize(e.author)(s.batches[e])
            == s.authors[e.author].bytes + OutstandingSize(e.author)(r))
  }

  lemma {:induction false} RewriteQueue(s: Tables, t: Tables, e: Envelope, r: Row)
    requires Rewrites(s, t, e, r) && QueueRight(s)
    ensures QueueRight(t)
  {
    SumSet(s.batches, QueuedOne, e, r);
    SumSet(s.batches, QueuedSize, e, r);
  }

  lemma {:induction false} RewriteAuthor(s: Tables, t: Tables, e: Envelope, r: Row, a: Bytes)
    requires Rewrites(s, t, e, r) && AuthorRight(s.batches, s.authors, a) && s.batches[e].envelope == e
    ensures AuthorRight(t.batches, t.authors, a)
  {
    SumSet(s.batches, Outstanding(a), e, r);
    SumSet(s.batches, OutstandingSize(a), e, r);
    if a in s.authors { RewriteLast(s.batches, t.batches, a, s.authors[a].last); }
  }

  lemma {:induction false} RewriteLast(s: map<Envelope, Row>, t: map<Envelope, Row>, a: Bytes, last: nat)
    requires t.Keys == s.Keys && LastRight(s, a, last)
    ensures LastRight(t, a, last)
  {
    var f :| f in s && Wrote(f, a, last);
    assert f in t && Wrote(f, a, last);
  }

  lemma {:induction false} RewriteEntries(c: Config, s: Tables, t: Tables, e: Envelope, r: Row)
    requires Rewrites(s, t, e, r) && EntriesOk(c, s)
    ensures EntriesOk(c, t)
  {
    forall k | k in t.journal ensures EntryOk(c, t, k, t.journal[k]) { assert EntryOk(c, s, k, s.journal[k]); }
  }

  /** Rewriting a row soundly, within bounds, keeps the whole invariant. */
  lemma {:induction false} RewriteSound(c: Config, s: Tables, t: Tables, e: Envelope, r: Row)
    requires Sound(c, s) && Rewrites(s, t, e, r) && RowOk(c, e, r) && WithinBounds(c, t)
    ensures Sound(c, t)
  {
    assert RowOk(c, e, s.batches[e]);
    RewriteQueue(s, t, e, r);
    forall a ensures AuthorRight(t.batches, t.authors, a) {
      assert AuthorRight(s.batches, s.authors, a);
      RewriteAuthor(s, t, e, r, a);
    }
    RewriteEntries(c, s, t, e, r);
    forall f | f in t.batches ensures RowOk(c, f, t.batches[f]) { if f != e { assert RowOk(c, f, s.batches[f]); } }
  }

  lemma {:induction false} RewriteEvolves(s: Tables, t: Tables, e: Envelope, r: Row)
    requires Rewrites(s, t, e, r)
    ensures Evolves(s, t)
  {
    forall f | f in s.batches ensures RowKept(s.batches[f], t.batches[f]) { }
    forall k | k in s.journal ensures EntryKept(s.journal[k], t.journal[k]) { }
  }

  /** A certified row's author has an accounting row, and its counters cover the batch. */
  lemma {:induction false} CountersCover(c: Config, t: Tables, e: Envelope)
    requires Sound(c, t) && e in t.batches
    ensures e.author in t.authors
    ensures Queued(t.batches[e]) ==> t.queueBatches >= 1 && t.queueBytes >= t.batches[e].size
    ensures t.batches[e].certificate.None? ==>
              t.authors[e.author].batches >= 1 && t.authors[e.author].bytes >= t.batches[e].size
  {
    assert RowOk(c, e, t.batches[e]);
    assert AuthorRight(t.batches, t.authors, e.author);
    SumAtLeast(t.batches, QueuedOne, e);
    SumAtLeast(t.batches, QueuedSize, e);
    SumAtLeast(t.batches, Outstanding(e.author), e);
    SumAtLeast(t.batches, OutstandingSize(e.author), e);
  }

  // ---------- a new batch ----------

  /** A stored row enters under the author's next sequence. */
  ghost predicate Inserts(s: Tables, t: Tables, e: Envelope, r: Row)
  {
    && e !in s.batches && r.envelope == e && r.state == Stored && r.certificate.None?
    && t.batches == s.batches[e := r] && t.journal == s.journal
    && t.watermark == s.watermark && t.sequence >= s.sequence
    && t.queueBatches == s.queueBatches + 1 && t.queueBytes == s.queueBytes + r.size
    && (e.author in s.authors ==> e.sequence == s.authors[e.author].last + 1)
    && t.authors == s.authors[e.author := AfterInsert(s.authors, e, r.size)]
  }

  function AfterInsert(authors: map<Bytes, AuthorState>, e: Envelope, size: nat): AuthorState
  {
    if e.author in authors then AuthorState(e.sequence, authors[e.author].batches + 1, authors[e.author].bytes + size)
    else AuthorState(e.sequence, 1, size)
  }

  lemma {:induction false} SumNothing<K, V>(m: map<K, V>, f: V -> nat)
    requires forall k :: k in m ==> f(m[k]) == 0
    ensures Sum(m, f) == 0
    decreases |m|
  {
    if k :| k in m {
      RemoveShrinks(m, k);
      SumRemove(m, f, k);
      SumNothing(m - {k}, f);
    }
  }

  lemma {:induction false} InsertAuthor(s: Tables, t: Tables, e: Envelope, r: Row, a: Bytes)
    requires Inserts(s, t, e, r) && AuthorRight(s.batches, s.authors, a)
    requires forall f :: f in s.batches ==> s.batches[f].envelope == f
    ensures AuthorRight(t.batches, t.authors, a)
  {
    SumSet(s.batches, Outstanding(a), e, r);
    SumSet(s.batches, OutstandingSize(a), e, r);
    if a == e.author {
      assert e in t.batches && Wrote(e, a, e.sequence);
      if a !in s.authors {
        SumNothing(s.batches, Outstanding(a));
        SumNothing(s.batches, OutstandingSize(a));
      }
    } else if a in s.authors {
      var f :| f in s.batches && Wrote(f, a, s.authors[a].last);
      assert f in t.batches && Wrote(f, a, t.authors[a].last);
    }
  }

  /** The next sequence of an author is not taken. */
  lemma {:induction false} NextIsNew(c: Config, s: Tables, e: Envelope)
    requires Sound(c, s) && e.author in s.authors && e.sequence == s.authors[e.author].last + 1
    ensures forall f :: f in s.batches && f.author == e.author ==> f.sequence != e.sequence
  {
    assert AuthorRight(s.batches, s.authors, e.author);
  }

  lemma {:induction false} InsertRows(c: Config, s: Tables, t: Tables, e: Envelope, r: Row)
    requires RowsOk(c, s) && Inserts(s, t, e, r) && RowOk(c, e, r)
    ensures RowsOk(c, t) && forall f :: f in s.batches ==> s.batches[f].envelope == f
  {
    forall f | f in s.batches ensures s.batches[f].envelope == f { assert RowOk(c, f, s.batches[f]); }
    forall f | f in t.batches ensures RowOk(c, f, t.batches[f]) { if f != e { assert RowOk(c, f, s.batches[f]); } }
  }

  lemma {:induction false} InsertEntries(c: Config, s: Tables, t: Tables, e: Envelope, r: Row)
    requires EntriesOk(c, s) && Inserts(s, t, e, r)
    ensures EntriesOk(c, t)
  {
    forall k | k in t.journal ensures EntryOk(c, t, k, t.journal[k]) { assert EntryOk(c, s, k, s.journal[k]); }
  }

  lemma {:induction false} InsertCounters(s: Tables, t: Tables, e: Envelope, r: Row)
    requires QueueRight(s) && AuthorsRight(s) && Inserts(s, t, e, r) && forall f :: f in s.batches ==>
               s.batches[f].envelope == f
    ensures QueueRight(t) && AuthorsRight(t)
  {
    SumSet(s.batches, QueuedOne, e, r);
    SumSet(s.batches, QueuedSize, e, r);
    forall a ensures AuthorRight(t.batches, t.authors, a) {
      assert AuthorRight(s.batches, s.authors, a);
      InsertAuthor(s, t, e, r, a);
    }
  }

  lemma {:induction false} InsertSound(c: Config, s: Tables, t: Tables, e: Envelope, r: Row)
    requires Sound(c, s) && Inserts(s, t, e, r) && RowOk(c, e, r) && WithinBounds(c, t)
    ensures Sound(c, t)
  {
    InsertRows(c, s, t, e, r);
    InsertCounters(s, t, e, r);
    InsertEntries(c, s, t, e, r);
    InsertDistinct(c, s, t, e, r);
  }

  lemma {:induction false} InsertDistinct(c: Config, s: Tables, t: Tables, e: Envelope, r: Row)
    requires Sound(c, s) && Inserts(s, t, e, r)
    ensures OneBatchEach(t)
  {
    assert AuthorRight(s.batches, s.authors, e.author);
    if e.author in s.authors { NextIsNew(c, s, e); }
  }

  lemma {:induction false} InsertSteps(s: Tables, t: Tables, e: Envelope, r: Row)
    requires Inserts(s, t, e, r)
    ensures Step(s, t)
  {
    forall f | f in s.batches ensures RowKept(s.batches[f], t.batches[f]) { assert t.batches[f] == s.batches[f]; }
    forall k | k in s.journal ensures EntryKept(s.journal[k], t.journal[k]) { }
  }

  // ---------- journal entries ----------

  /** Only the journal and the counters of the metadata row move. */
  ghost predicate JournalOnly(s: Tables, t: Tables)
  {
    && t == s.(journal := t.journal, watermark := t.watermark, sequence := t.sequence)
    && s.sequence <= t.sequence < U64 && s.watermark <= t.watermark < U64
  }

  lemma {:induction false} JournalSound(c: Config, s: Tables, t: Tables)
    requires Sound(c, s) && JournalOnly(s, t) && EntriesOk(c, t) && OrdinalsExact(t.journal, t.watermark)
    ensures Sound(c, t)
  {
    forall f | f in t.batches ensures RowOk(c, f, t.batches[f]) { assert RowOk(c, f, s.batches[f]); }
    forall a ensures AuthorRight(t.batches, t.authors, a) { assert AuthorRight(s.batches, s.authors, a); }
  }

  lemma {:induction false} JournalSteps(s: Tables, t: Tables)
    requires JournalOnly(s, t) && s.journal.Keys <= t.journal.Keys
    requires forall k :: k in s.journal ==> EntryKept(s.journal[k], t.journal[k])
    ensures Step(s, t)
  {
    forall f | f in s.batches ensures RowKept(s.batches[f], t.batches[f]) { }
  }

  lemma {:induction false} OrdinalsNext(j: map<Coordinate, Entry>, n: nat, k: Coordinate, x: Entry)
    requires OrdinalsExact(j, n) && k !in j && x.body.ordinal == n + 1
    ensures OrdinalsExact(j[k := x], n + 1)
  {
  }

  lemma {:induction false} OrdinalsSame(j: map<Coordinate, Entry>, n: nat, k: Coordinate, x: Entry)
    requires OrdinalsExact(j, n) && k in j && x.body.ordinal == j[k].body.ordinal
    ensures OrdinalsExact(j[k := x], n)
  {
    assert j[k := x].Keys == j.Keys;
    SameSize(j, j[k := x]);
  }

  /** A body for a new coordinate takes the next ordinal. */
  lemma {:induction false} JournalInsert(c: Config, s: Tables, t: Tables, k: Coordinate, b: Body)
    requires Sound(c, s) && k !in s.journal && JournalOnly(s, t)
    requires b.ordinal == s.watermark + 1 == t.watermark && EntryOk(c, s, k, Entry(b, None))
    requires t.journal == s.journal[k := Entry(b, None)]
    ensures Sound(c, t) && Step(s, t)
  {
    JournalEntries(c, s, t, k, Entry(b, None));
    OrdinalsNext(s.journal, s.watermark, k, Entry(b, None));
    JournalSound(c, s, t);
    JournalSteps(s, t);
  }

  lemma {:induction false} JournalEntries(c: Config, s: Tables, t: Tables, k: Coordinate, n: Entry)
    requires EntriesOk(c, s) && t.batches == s.batches && t.journal == s.journal[k := n] && EntryOk(c, s, k, n)
    ensures EntriesOk(c, t)
  {
    forall j | j in t.journal ensures EntryOk(c, t, j, t.journal[j]) {
      if j != k { assert EntryOk(c, s, j, s.journal[j]); }
    }
  }

  /** A signature is added to an entry once. */
  lemma {:induction false} JournalSign(c: Config, s: Tables, t: Tables, k: Coordinate, signature: Bytes)
    requires Sound(c, s) && k in s.journal && s.journal[k].signature.None? && JournalOnly(s, t)
    requires t.watermark == s.watermark
    requires AttestationOk(c.rules, c.committee, Signed(s.journal[k].body, signature))
    requires t.journal == s.journal[k := Entry(s.journal[k].body, Some(signature))]
    ensures Sound(c, t) && Step(s, t)
  {
    assert EntryOk(c, s, k, s.journal[k]);
    JournalEntries(c, s, t, k, Entry(s.journal[k].body, Some(signature)));
    OrdinalsSame(s.journal, s.watermark, k, Entry(s.journal[k].body, Some(signature)));
    JournalSound(c, s, t);
    JournalSteps(s, t);
  }

  lemma {:induction false} SameSize<K, V>(m: map<K, V>, n: map<K, V>)
    requires m.Keys == n.Keys
    ensures |m| == |n|
  {
    assert |m| == |m.Keys| && |n| == |n.Keys|;
  }
}
