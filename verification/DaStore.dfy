/**
 The data-availability store: every operation of a batch's life cycle, from admission through
 attestation, certification, corruption, repair and retention to garbage collection.
 */
module DaStore {
  import opened Wrappers
  import opened DaCommittee
  import opened DaTables
  import opened DaAudit

  datatype Admission = Inserted | Existing
  datatype Intent = Intent(storeId: nat, key: Coordinate, body: Body)
  datatype Preparation = Prepared(intent: Intent) | Attested(attestation: Attestation)
  datatype Permit = Permit(storeId: nat, batch: Envelope, obligationBatch: Digest, obligationCertificate: Digest,
                           version: nat, epoch: nat, height: nat, checkpoint: GcCheckpoint)

  /** The digest a permit carries: it binds the store, the batch, the obligation and both committed bounds. */
  datatype GcCheckpoint = GcCheckpoint(storeId: nat, batch: Envelope, obligationBatch: Digest,
                                       obligationCertificate: Digest, version: nat, epoch: nat, height: nat)

  // ---------- what each write leaves behind ----------

  /** One committed write: a row, the queue counters and the next store sequence. */
  function Written(s: Tables, e: Envelope, r: Row, queueBatches: nat, queueBytes: nat): Tables
  {
    s.(batches := s.batches[e := r], sequence := s.sequence + 1, queueBatches := queueBatches, queueBytes := queueBytes)
  }

  function NewRow(b: Batch, author: Author): Row
  {
    Row(b.envelope, author, Some(b.content), Some(b.content), |b.content|, OfManifest(b.envelope, author, b.content),
        Stored, None, None, 0)
  }

  function AfterAdmit(s: Tables, b: Batch, author: Author): Tables
  {
    Written(s, b.envelope, NewRow(b, author), s.queueBatches + 1, s.queueBytes + |b.content|)
      .(authors := s.authors[b.envelope.author := AfterInsert(s.authors, b.envelope, |b.content|)])
  }

  function CertifiedRow(r: Row, cert: Certificate): Row
  {
    r.(state := Certified, certificate := Some(cert), sealed := r.content,
       obligation := Some(Minimum(OfEnvelope(cert.envelope), cert.id, cert.envelope.retentionEnd)))
  }

  function LatchedRow(r: Row): Row { r.(content := None, sealed := None, state := Unavailable) }

  function RepairedRow(r: Row, content: Bytes): Row
  {
    r.(content := Some(content), sealed := Some(content), repairs := r.repairs + 1,
       state := if r.certificate.Some? then Certified else Stored)
  }

  function CollectedRow(r: Row, o: Obligation): Row
  {
    r.(content := None, sealed := None, state := GarbageCollected, obligation := Some(o))
  }

  // ---------- each write keeps its row in order ----------

  lemma {:induction false} CertifiedRowOk(c: Config, e: Envelope, r: Row, cert: Certificate)
    requires RowOk(c, e, r) && r.state == Stored && Fresh(r)
    requires Accepted(c.rules, c.committee, cert) && CertificateBinds(cert, e, r.author)
    ensures RowOk(c, e, CertifiedRow(r, cert)) && RowKept(r, CertifiedRow(r, cert))
  {
  }

  lemma {:induction false} LatchedRowOk(c: Config, e: Envelope, r: Row)
    requires RowOk(c, e, r) && r.state != GarbageCollected
    ensures RowOk(c, e, LatchedRow(r)) && RowKept(r, LatchedRow(r))
  {
  }

  lemma {:induction false} RepairedRowOk(c: Config, e: Envelope, r: Row, content: Bytes)
    requires RowOk(c, e, r) && r.state == Unavailable && r.repairs + 1 < U64
    requires r.manifest == OfManifest(e, r.author, content)
    ensures RowOk(c, e, RepairedRow(r, content)) && RowKept(r, RepairedRow(r, content))
    ensures Live(c, e, RepairedRow(r, content))
  {
  }

  lemma {:induction false} CollectedRowOk(c: Config, e: Envelope, r: Row, o: Obligation)
    requires RowOk(c, e, r) && r.state == Certified && r.obligation.Some?
    requires Later(r.obligation.value, o) && ObligationOk(o) && o.status == Collected
    ensures RowOk(c, e, CollectedRow(r, o)) && RowKept(r, CollectedRow(r, o))
  {
  }

  lemma {:induction false} UpdatedRowOk(c: Config, e: Envelope, r: Row, o: Obligation)
    requires RowOk(c, e, r) && r.state == Certified && Fresh(r) && r.obligation.Some?
    requires Later(r.obligation.value, o) && ObligationOk(o) && o.status != Collected
    ensures RowOk(c, e, r.(obligation := Some(o))) && RowKept(r, r.(obligation := Some(o)))
  {
  }

  lemma {:induction false} CorruptedRowOk(c: Config, e: Envelope, r: Row, bytes: Bytes)
    requires RowOk(c, e, r) && r.content.Some?
    ensures RowOk(c, e, r.(content := Some(bytes))) && RowKept(r, r.(content := Some(bytes)))
  {
  }

  // ---------- each write keeps the invariant ----------

  lemma {:induction false} AdmitSound(c: Config, s: Tables, b: Batch, author: Author)
    requires Sound(c, s) && b.envelope !in s.batches && c.exact(b) && Authored(c, b.envelope, author)
    requires |b.content| < U64
    requires b.envelope.author in s.authors ==> b.envelope.sequence == s.authors[b.envelope.author].last + 1
    requires WithinBounds(c, AfterAdmit(s, b, author))
    ensures Sound(c, AfterAdmit(s, b, author)) && Step(s, AfterAdmit(s, b, author))
    ensures Live(c, b.envelope, NewRow(b, author))
  {
    InsertSound(c, s, AfterAdmit(s, b, author), b.envelope, NewRow(b, author));
    InsertSteps(s, AfterAdmit(s, b, author), b.envelope, NewRow(b, author));
  }

  /** A rewrite that keeps its row out of the collected state is a legal step. */
  lemma {:induction false} RewriteStep(c: Config, s: Tables, t: Tables, e: Envelope, r: Row)
    requires Sound(c, s) && Rewrites(s, t, e, r) && RowOk(c, e, r) && WithinBounds(c, t)
    requires r.state != GarbageCollected
    ensures Sound(c, t) && Step(s, t)
  {
    RewriteSound(c, s, t, e, r);
    RewriteEvolves(s, t, e, r);
  }

  function Debited(s: Tables, e: Envelope, size: nat): map<Bytes, AuthorState>
    requires e.author in s.authors && s.authors[e.author].batches >= 1 && s.authors[e.author].bytes >= size
  {
    var a := s.authors[e.author];
    s.authors[e.author := AuthorState(a.last, a.batches - 1, a.bytes - size)]
  }

  predicate Covered(s: Tables, e: Envelope)
  {
    && e in s.batches && s.queueBatches >= 1 && s.queueBytes >= s.batches[e].size
    && e.author in s.authors && s.authors[e.author].batches >= 1 && s.authors[e.author].bytes >= s.batches[e].size
  }

  /** The batch leaves the queue and its author's outstanding quota. */
  function Settled(s: Tables, e: Envelope, cert: Certificate): Tables
    requires Covered(s, e)
  {
    var r := s.batches[e];
    Written(s, e, CertifiedRow(r, cert), s.queueBatches - 1, s.queueBytes - r.size).(authors := Debited(s, e, r.size))
  }

  lemma {:induction false} CertifyRewrites(s: Tables, e: Envelope, cert: Certificate)
    requires Covered(s, e) && s.batches[e].envelope == e && s.batches[e].state == Stored
    requires s.batches[e].certificate.None?
    requires RowKept(s.batches[e], CertifiedRow(s.batches[e], cert))
    ensures Rewrites(s, Settled(s, e, cert), e, CertifiedRow(s.batches[e], cert))
  {
  }

  lemma {:induction false} CertifySound(c: Config, s: Tables, e: Envelope, cert: Certificate)
    requires Sound(c, s) && e in s.batches && s.batches[e].state == Stored && s.sequence + 1 < U64
    requires Fresh(s.batches[e]) && Accepted(c.rules, c.committee, cert)
    requires CertificateBinds(cert, e, s.batches[e].author)
    ensures Covered(s, e) && Sound(c, Settled(s, e, cert)) && Step(s, Settled(s, e, cert))
  {
    var r := s.batches[e];
    assert RowOk(c, e, r);
    CountersCover(c, s, e);
    CertifiedRowOk(c, e, r, cert);
    CertifyRewrites(s, e, cert);
    RewriteStep(c, s, Settled(s, e, cert), e, CertifiedRow(r, cert));
  }

  lemma {:induction false} LatchSound(c: Config, s: Tables, e: Envelope, queueBatches: nat, queueBytes: nat)
    requires Sound(c, s) && e in s.batches && s.batches[e].state != GarbageCollected && s.sequence + 1 < U64
    requires queueBatches == s.queueBatches + (if s.batches[e].state == Certified then 1 else 0) <= c.maxQueueBatches
    requires queueBytes <= c.maxQueueBytes
    requires queueBytes == s.queueBytes + (if s.batches[e].state == Certified then s.batches[e].size else 0)
    ensures var t := Written(s, e, LatchedRow(s.batches[e]), queueBatches, queueBytes); Sound(c, t) && Step(s, t)
  {
    var r := s.batches[e];
    assert RowOk(c, e, r);
    LatchedRowOk(c, e, r);
    RewriteStep(c, s, Written(s, e, LatchedRow(r), queueBatches, queueBytes), e, LatchedRow(r));
  }

  lemma {:induction false} RepairSound(c: Config, s: Tables, e: Envelope, content: Bytes, queueBatches: nat,
                                       queueBytes: nat)
    requires Sound(c, s) && e in s.batches && s.batches[e].state == Unavailable && s.sequence + 1 < U64
    requires s.batches[e].repairs + 1 < U64 && s.batches[e].manifest == OfManifest(e, s.batches[e].author, content)
    requires queueBatches + (if s.batches[e].certificate.Some? then 1 else 0) == s.queueBatches
    requires queueBytes + (if s.batches[e].certificate.Some? then s.batches[e].size else 0) == s.queueBytes
    ensures var t := Written(s, e, RepairedRow(s.batches[e], content), queueBatches, queueBytes);
            Sound(c, t) && Step(s, t) && Live(c, e, t.batches[e])
  {
    var r := s.batches[e];
    assert RowOk(c, e, r);
    RepairedRowOk(c, e, r, content);
    RewriteStep(c, s, Written(s, e, RepairedRow(r, content), queueBatches, queueBytes), e, RepairedRow(r, content));
  }

  lemma {:induction false} ObligationSound(c: Config, s: Tables, e: Envelope, o: Obligation)
    requires Sound(c, s) && e in s.batches && s.batches[e].state == Certified && Fresh(s.batches[e])
    requires s.sequence + 1 < U64
    requires s.batches[e].obligation.Some? && Later(s.batches[e].obligation.value, o) && ObligationOk(o)
    requires o.status != Collected
    ensures var t := Written(s, e, s.batches[e].(obligation := Some(o)), s.queueBatches, s.queueBytes);
            Sound(c, t) && Step(s, t)
  {
    var r := s.batches[e].(obligation := Some(o));
    assert RowOk(c, e, s.batches[e]);
    UpdatedRowOk(c, e, s.batches[e], o);
    RewriteStep(c, s, Written(s, e, r, s.queueBatches, s.queueBytes), e, r);
  }

  lemma {:induction false} CollectSound(c: Config, s: Tables, e: Envelope, o: Obligation)
    requires Sound(c, s) && e in s.batches && s.batches[e].state == Certified && s.sequence + 1 < U64
    requires s.batches[e].obligation.Some? && s.batches[e].obligation.value.status == Released
    requires Later(s.batches[e].obligation.value, o) && ObligationOk(o) && o.status == Collected
    ensures var t := Written(s, e, CollectedRow(s.batches[e], o), s.queueBatches, s.queueBytes);
            Sound(c, t) && Step(s, t)
  {
    var r := CollectedRow(s.batches[e], o);
    assert RowOk(c, e, s.batches[e]);
    CollectedRowOk(c, e, s.batches[e], o);
    var t := Written(s, e, r, s.queueBatches, s.queueBytes);
    RewriteSound(c, s, t, e, r);
    RewriteEvolves(s, t, e, r);
  }

  lemma {:induction false} CorruptSound(c: Config, s: Tables, e: Envelope, bytes: Bytes)
    requires Sound(c, s) && e in s.batches && s.batches[e].content.Some?
    ensures var t := s.(batches := s.batches[e := s.batches[e].(content := Some(bytes))]); Sound(c, t) && Step(s, t)
  {
    var r := s.batches[e].(content := Some(bytes));
    assert RowOk(c, e, s.batches[e]);
    CorruptedRowOk(c, e, s.batches[e], bytes);
    RewriteStep(c, s, s.(batches := s.batches[e := r]), e, r);
  }

  /** A live row is one of the two states that hold content. */
  lemma {:induction false} LiveState(c: Config, s: Tables, e: Envelope)
    requires Sound(c, s) && e in s.batches
    ensures Live(c, e, s.batches[e]) <==> Fresh(s.batches[e]) && HasContent(s.batches[e].state)
  {
    assert RowOk(c, e, s.batches[e]);
  }

  // ---------- what each operation demands ----------

  predicate Conflicts(t: Tables, e: Envelope, f: Envelope)
  {
    f in t.batches && Wrote(f, e.author, e.sequence)
  }

  /** The author's next sequence, within every quota. */
  predicate InsertOk(c: Config, t: Tables, b: Batch)
  {
    var e := b.envelope;
    && e.author in c.authorities
    && var authority := c.authorities[e.author];
    && e.sequence == (if e.author in t.authors then t.authors[e.author].last + 1 else authority.first)
    && e.sequence < U64 && e.sequence <= authority.last
    && var next := AfterInsert(t.authors, e, |b.content|);
    && next.batches <= authority.maxOutstanding && next.bytes <= authority.maxBytes && next.batches < U64
    && next.bytes < U64
    && t.queueBatches + 1 <= c.maxQueueBatches && t.queueBytes + |b.content| <= c.maxQueueBytes && t.sequence + 1 < U64
  }

  /** A free sequence that may be inserted, or the very batch that is already stored intact. */
  ghost predicate AdmitOk(c: Config, t: Tables, b: Batch, author: Author)
  {
    && c.exact(b) && |b.content| < U64 && Authored(c, b.envelope, author)
    && (forall f :: Conflicts(t, b.envelope, f) ==>
          f == b.envelope && Fresh(t.batches[f]) && t.batches[f].author == author
          && t.batches[f].content == Some(b.content))
    && ((forall f :: !Conflicts(t, b.envelope, f)) ==> InsertOk(c, t, b))
  }

  lemma {:induction false} TakenSequence(c: Config, t: Tables, b: Batch, author: Author, f: Envelope)
    requires Sound(c, t) && Conflicts(t, b.envelope, f) && c.exact(b) && |b.content| < U64
    requires Authored(c, b.envelope, author)
    ensures AdmitOk(c, t, b, author) <==>
            f == b.envelope && Fresh(t.batches[f]) && t.batches[f].author == author
            && t.batches[f].content == Some(b.content)
  {
    forall g | Conflicts(t, b.envelope, g) ensures g == f { }
  }

  lemma {:induction false} FreeSequence(c: Config, t: Tables, b: Batch, author: Author)
    requires (forall f :: !Conflicts(t, b.envelope, f))
    requires c.exact(b) && |b.content| < U64 && Authored(c, b.envelope, author)
    ensures AdmitOk(c, t, b, author) <==> InsertOk(c, t, b)
  {
  }

  predicate PrepareOk(c: Config, t: Tables, e: Envelope, ordinal: nat)
  {
    && ordinal > 0 && e in t.batches && Live(c, e, t.batches[e])
    && var body := NewBody(e, c.attestor, ordinal, t.batches[e].manifest);
    && if CoordinateOf(body) in t.journal then t.journal[CoordinateOf(body)].body == body
       else ordinal == t.watermark + 1 < U64 && t.sequence + 1 < U64
  }

  /** The body an attestation of a stored batch has. */
  function BodyFor(c: Config, t: Tables, e: Envelope, ordinal: nat): Body
    requires e in t.batches
  {
    NewBody(e, c.attestor, ordinal, t.batches[e].manifest)
  }

  /** What a preparation answers: the attestation the journal holds, or the intent to sign. */
  function Preparing(c: Config, t: Tables, e: Envelope, ordinal: nat): Preparation
    requires e in t.batches
  {
    var body := BodyFor(c, t, e, ordinal);
    var key := CoordinateOf(body);
    if key in t.journal && t.journal[key].signature.Some? then Attested(Signed(body, t.journal[key].signature.value))
    else Prepared(Intent(c.storeId, key, body))
  }

  predicate CompleteOk(c: Config, t: Tables, intent: Intent, signature: Bytes)
  {
    && intent.storeId == c.storeId && AttestationOk(c.rules, c.committee, Signed(intent.body, signature))
    && intent.key in t.journal && t.journal[intent.key].body == intent.body
    && intent.body.batch.OfEnvelope? && intent.body.batch.e in t.batches
    && Live(c, intent.body.batch.e, t.batches[intent.body.batch.e])
    && intent.body.record == t.batches[intent.body.batch.e].manifest
    && (match t.journal[intent.key].signature case Some(known) => known == signature case None => t.sequence + 1 < U64)
  }

  ghost predicate CertificateFits(c: Config, t: Tables, cert: Certificate)
  {
    && Accepted(c.rules, c.committee, cert) && cert.envelope in t.batches
    && Live(c, cert.envelope, t.batches[cert.envelope])
    && cert.author == t.batches[cert.envelope].author
    && (match t.batches[cert.envelope].certificate case Some(known) => known == cert case None => t.sequence + 1 < U64)
  }

  predicate LatchOk(c: Config, t: Tables, e: Envelope)
  {
    && e in t.batches && t.batches[e].state != GarbageCollected && t.sequence + 1 < U64
    && (t.batches[e].state == Certified ==>
          t.queueBatches + 1 <= c.maxQueueBatches && t.queueBytes + t.batches[e].size <= c.maxQueueBytes)
  }

  /** The row answers an audit as it is: it is intact, or its content was collected. */
  predicate Settles(c: Config, t: Tables, e: Envelope)
    requires e in t.batches
  {
    Live(c, e, t.batches[e]) || t.batches[e].state == GarbageCollected
  }

  predicate RepairOk(c: Config, t: Tables, b: Batch, author: Author)
  {
    && c.exact(b) && c.rules.authored(author, b.envelope) && b.envelope in t.batches
    && t.batches[b.envelope].state == Unavailable
    && t.batches[b.envelope].manifest == OfManifest(b.envelope, author, b.content)
    && t.batches[b.envelope].repairs + 1 < U64 && t.sequence + 1 < U64
  }

  predicate UpdateOk(t: Tables, e: Envelope, update: Obligation -> Result<Obligation>)
  {
    && e in t.batches && Fresh(t.batches[e]) && t.batches[e].state == Certified && t.batches[e].obligation.Some?
    && update(t.batches[e].obligation.value).Ok? && t.sequence + 1 < U64
  }

  /** The permit is for exactly this obligation of this store. */
  predicate Authorises(c: Config, permit: Permit, o: Obligation)
  {
    && permit.obligationBatch == o.batch && permit.obligationCertificate == o.certificate && permit.version == o.version
    && permit.checkpoint == GcCheckpoint(c.storeId, permit.batch, o.batch, o.certificate, o.version, permit.epoch,
                                         permit.height)
  }

  /** The permit names the exact released obligation, after both bounds. */
  predicate CollectOk(c: Config, t: Tables, permit: Permit)
  {
    && permit.storeId == c.storeId && permit.batch in t.batches
    && var r := t.batches[permit.batch];
    && Fresh(r) && r.state == Certified && r.obligation.Some?
    && var o := r.obligation.value;
    && Authorises(c, permit, o) && permit.epoch > o.retainUntil && permit.height > o.holdUntil
    && o.status == Released && o.version + 1 < U64 && t.sequence + 1 < U64
  }

  class Store {
    const cfg: Config
    var db: Tables

    constructor (cfg: Config)
      requires cfg.Valid()
      ensures this.cfg == cfg && db == Empty && Sound(cfg, db)
    {
      this.cfg := cfg;
      db := Empty;
      EmptySound(cfg);
    }

    /** Opening for a write audits the journal first; in a sound store that never fails. */
    method Open() returns (r: Result<bool>)
      requires Sound(cfg, db)
      ensures r.Ok?
    {
      SoundJournal(cfg, db);
      var ok := AuditJournal(cfg, db);
      r := if ok then Ok(true) else Err(TamperDetected);
    }

    /** Admission: one batch per author sequence, in sequence, within the author's and the queue's quotas. */
    method AdmitBatch(batch: Batch, author: Author) returns (r: Result<Admission>)
      requires Sound(cfg, db)
      modifies this
      ensures Sound(cfg, db) && Step(old(db), db)
      ensures r.Err? ==> db == old(db)
      ensures r == Ok(Inserted) ==> db == AfterAdmit(old(db), batch, author)
      ensures r == Ok(Existing) ==>
                db == old(db) && batch.envelope in db.batches && Live(cfg, batch.envelope, db.batches[batch.envelope])
      ensures r.Ok? <==> AdmitOk(cfg, old(db), batch, author)
    {
      var e := batch.envelope;
      if !(cfg.exact(batch) && ShapeOk(cfg.rules, e) && InContext(cfg.committee, e) && |batch.content| < U64) {
        StepRefl(db);
        return Err(TamperDetected);
      }
      if !cfg.rules.authored(author, e) { StepRefl(db); return Err(InvalidSignature); }
      if e.author !in cfg.authorities || cfg.authorities[e.author].key != author.key {
        StepRefl(db);
        return Err(UnauthorizedAuthor);
      }
      var audited := Open();
      StepRefl(db);
      if f :| f in db.batches && Conflicts(db, e, f) {
        TakenSequence(cfg, db, batch, author, f);
        r := Readmit(f, batch, author);
        return;
      }
      FreeSequence(cfg, db, batch, author);
      r := InsertNext(batch, author);
    }

    /** A taken sequence admits only the very batch it holds, intact. */
    method Readmit(f: Envelope, batch: Batch, author: Author) returns (r: Result<Admission>)
      requires Sound(cfg, db) && Conflicts(db, batch.envelope, f)
      ensures r.Ok? ==>
                r.value == Existing && batch.envelope in db.batches
                && Live(cfg, batch.envelope, db.batches[batch.envelope])
      ensures r.Ok? <==>
                f == batch.envelope && Fresh(db.batches[f]) && db.batches[f].author == author
                && db.batches[f].content == Some(batch.content)
    {
      LiveState(cfg, db, f);
      assert RowOk(cfg, f, db.batches[f]);
      if !Fresh(db.batches[f]) { return Err(TamperDetected); }
      if f == batch.envelope && db.batches[f].author == author && db.batches[f].content == Some(batch.content) {
        if !Live(cfg, f, db.batches[f]) { return Err(TamperDetected); }
        return Ok(Existing);
      }
      return Err(SequenceConflict);
    }

    /** A batch for a free author sequence: it must be the next one and fit every quota. */
    method InsertNext(batch: Batch, author: Author) returns (r: Result<Admission>)
      requires Sound(cfg, db) && cfg.exact(batch) && Authored(cfg, batch.envelope, author) && |batch.content| < U64
      requires forall f :: !Conflicts(db, batch.envelope, f)
      modifies this
      ensures Sound(cfg, db) && Step(old(db), db)
      ensures r.Err? ==> db == old(db)
      ensures r.Ok? <==> InsertOk(cfg, old(db), batch)
      ensures r.Ok? ==> r.value == Inserted && db == AfterAdmit(old(db), batch, author)
    {
      var e := batch.envelope;
      StepRefl(db);
      var authority := cfg.authorities[e.author];
      var expected := if e.author in db.authors then db.authors[e.author].last + 1 else authority.first;
      if expected >= U64 { return Err(ArithmeticOverflow); }
      if e.sequence != expected || expected > authority.last { return Err(SequenceConflict); }
      var next := AfterInsert(db.authors, e, |batch.content|);
      if next.batches >= U64 || next.bytes >= U64 { return Err(ArithmeticOverflow); }
      if next.batches > authority.maxOutstanding || next.bytes > authority.maxBytes { return Err(QuotaExceeded); }
      if db.queueBatches + 1 > cfg.maxQueueBatches || db.queueBytes + |batch.content| > cfg.maxQueueBytes {
        return Err(QueueFull);
      }
      if db.sequence + 1 >= U64 { return Err(ArithmeticOverflow); }
      assert !Conflicts(db, e, e);
      AdmitSound(cfg, db, batch, author);
      db := AfterAdmit(db, batch, author);
      r := Ok(Inserted);
    }

    /** An intent is journalled before anything is signed, under the next ordinal. */
    method PrepareAttestation(e: Envelope, ordinal: nat) returns (r: Result<Preparation>)
      requires Sound(cfg, db)
      modifies this
      ensures Sound(cfg, db) && Step(old(db), db)
      ensures r.Err? ==> db == old(db)
      ensures r.Ok? <==> PrepareOk(cfg, old(db), e, ordinal)
      ensures r.Ok? ==> r.value == Preparing(cfg, old(db), e, ordinal)
      ensures r.Ok? ==> Journalled(db, BodyFor(cfg, old(db), e, ordinal))
      ensures r.Ok? && r.value.Attested? ==> Holds(db, r.value.attestation)
      ensures r.Ok? ==> db.watermark == old(db).watermark || db.watermark == ordinal == old(db).watermark + 1
    {
      StepRefl(db);
      if ordinal == 0 { return Err(InvalidBounds); }
      var audited := Open();
      if e !in db.batches { return Err(NotFound); }
      var row := db.batches[e];
      LiveState(cfg, db, e);
      if !Live(cfg, e, row) { return Err(TamperDetected); }
      if row.state == Unavailable || row.state == GarbageCollected { return Err(InvalidState); }
      var body := NewBody(e, cfg.attestor, ordinal, row.manifest);
      var key := CoordinateOf(body);
      if key in db.journal {
        var entry := db.journal[key];
        if entry.body != body { return Err(Conflict); }
        if entry.signature.Some? {
          assert EntryOk(cfg, db, key, entry);
          return Ok(Attested(Signed(body, entry.signature.value)));
        }
        return Ok(Prepared(Intent(cfg.storeId, key, body)));
      }
      if db.watermark + 1 >= U64 { return Err(ArithmeticOverflow); }
      if ordinal != db.watermark + 1 { return Err(SequenceConflict); }
      if db.sequence + 1 >= U64 { return Err(ArithmeticOverflow); }
      var t := db.(journal := db.journal[key := Entry(body, None)], watermark := ordinal, sequence := db.sequence + 1);
      JournalInsert(cfg, db, t, key, body);
      db := t;
      r := Ok(Prepared(Intent(cfg.storeId, key, body)));
    }

    /** A signature is recorded once for a journalled intent. */
    method CompleteAttestation(intent: Intent, signature: Bytes) returns (r: Result<Attestation>)
      requires Sound(cfg, db)
      modifies this
      ensures Sound(cfg, db) && Step(old(db), db)
      ensures r.Err? ==> db == old(db)
      ensures r.Ok? <==> CompleteOk(cfg, old(db), intent, signature)
      ensures r.Ok? ==> r.value == Signed(intent.body, signature) && Holds(db, r.value)
    {
      StepRefl(db);
      if intent.storeId != cfg.storeId { return Err(Conflict); }
      var attestation := Signed(intent.body, signature);
      if !AttestationOk(cfg.rules, cfg.committee, attestation) { return Err(InvalidSignature); }
      var audited := Open();
      if intent.key !in db.journal { return Err(InvalidState); }
      var entry := db.journal[intent.key];
      if !(intent.body.batch.OfEnvelope? && intent.body.batch.e in db.batches) { return Err(TamperDetected); }
      var row := db.batches[intent.body.batch.e];
      LiveState(cfg, db, intent.body.batch.e);
      if !Live(cfg, intent.body.batch.e, row) { return Err(TamperDetected); }
      if row.state == Unavailable || row.state == GarbageCollected || intent.body.record != row.manifest {
        return Err(InvalidState);
      }
      if entry.body != intent.body { return Err(TamperDetected); }
      r := SignEntry(intent.key, signature);
    }

    /** An entry takes its first signature, or confirms the one it has. */
    method SignEntry(key: Coordinate, signature: Bytes) returns (r: Result<Attestation>)
      requires Sound(cfg, db) && key in db.journal
      requires AttestationOk(cfg.rules, cfg.committee, Signed(db.journal[key].body, signature))
      modifies this
      ensures Sound(cfg, db) && Step(old(db), db)
      ensures r.Err? ==> db == old(db)
      ensures r.Ok? <==>
                match old(db).journal[key].signature
                case Some(known) => known == signature
                case None => old(db).sequence + 1 < U64
      ensures r.Ok? ==> r.value == Signed(old(db).journal[key].body, signature) && Holds(db, r.value)
    {
      StepRefl(db);
      var entry := db.journal[key];
      assert EntryOk(cfg, db, key, entry);
      if entry.signature.Some? {
        if entry.signature.value == signature { return Ok(Signed(entry.body, signature)); }
        return Err(Conflict);
      }
      if db.sequence + 1 >= U64 { return Err(ArithmeticOverflow); }
      var t := db.(journal := db.journal[key := Entry(entry.body, Some(signature))], sequence := db.sequence + 1);
      JournalSign(cfg, db, t, key, signature);
      db := t;
      r := Ok(Signed(entry.body, signature));
    }

    /** A valid certificate settles a stored batch; no counter ever underflows. */
    method AdmitCertificate(cert: Certificate) returns (r: Result<Obligation>)
      requires Sound(cfg, db)
      modifies this
      ensures Sound(cfg, db) && Step(old(db), db)
      ensures r.Err? ==> db == old(db)
      ensures r.Ok? <==> CertificateFits(cfg, old(db), cert)
      ensures r.Ok? ==> Accepted(cfg.rules, cfg.committee, cert) && cert.envelope in db.batches
                        && db.batches[cert.envelope].certificate == Some(cert)
                        && db.batches[cert.envelope].obligation == Some(r.value)
      ensures r == Err(TamperDetected) && Accepted(cfg.rules, cfg.committee, cert) ==>
                cert.envelope in db.batches && !Live(cfg, cert.envelope, db.batches[cert.envelope])
    {
      StepRefl(db);
      var valid := VerifyCertificate(cfg.rules, cfg.committee, cert);
      if valid.Err? { return Err(valid.code); }
      var audited := Open();
      var e := cert.envelope;
      if e !in db.batches { return Err(NotFound); }
      var row := db.batches[e];
      LiveState(cfg, db, e);
      assert RowOk(cfg, e, row);
      if !Live(cfg, e, row) { return Err(TamperDetected); }
      if cert.author != row.author || row.state == Unavailable || row.state == GarbageCollected {
        return Err(Conflict);
      }
      if row.certificate.Some? {
        if row.certificate.value != cert { return Err(Conflict); }
        return Ok(row.obligation.value);
      }
      if db.sequence + 1 >= U64 { return Err(ArithmeticOverflow); }
      r := Settle(e, cert);
    }

    /** Moves a stored batch out of the queue and of its author's outstanding quota. */
    method Settle(e: Envelope, cert: Certificate) returns (r: Result<Obligation>)
      requires Sound(cfg, db) && e in db.batches && db.batches[e].state == Stored && db.sequence + 1 < U64
      requires Fresh(db.batches[e]) && Accepted(cfg.rules, cfg.committee, cert)
      requires CertificateBinds(cert, e, db.batches[e].author)
      modifies this
      ensures Sound(cfg, db) && Step(old(db), db)
      ensures r.Ok? && e in db.batches && db.batches[e] == CertifiedRow(old(db).batches[e], cert)
      ensures db.batches[e].obligation == Some(r.value)
    {
      CertifySound(cfg, db, e, cert);
      if !Covered(db, e) { return Err(TamperDetected); }
      db := Settled(db, e, cert);
      r := Ok(db.batches[e].obligation.value);
    }

    /** The environment overwrites the content of a row without touching its checksum. */
    method CorruptContent(e: Envelope, bytes: Bytes)
      requires Sound(cfg, db)
      modifies this
      ensures Sound(cfg, db) && Step(old(db), db)
    {
      StepRefl(db);
      if e in db.batches && db.batches[e].content.Some? {
        CorruptSound(cfg, db, e, bytes);
        db := db.(batches := db.batches[e := db.batches[e].(content := Some(bytes))]);
      }
    }

    /** A row that fails verification is latched unavailable; a certified one re-enters the bounded queue. */
    method LatchUnavailable(e: Envelope) returns (r: Result<bool>)
      requires Sound(cfg, db)
      modifies this
      ensures Sound(cfg, db) && Step(old(db), db)
      ensures r.Err? ==> db == old(db)
      ensures r.Ok? <==> LatchOk(cfg, old(db), e)
      ensures r.Ok? ==> e in old(db).batches && e in db.batches && db.batches[e] == LatchedRow(old(db).batches[e])
    {
      StepRefl(db);
      var audited := Open();
      if e !in db.batches { return Err(NotFound); }
      var row := db.batches[e];
      if row.state == GarbageCollected { return Err(InvalidState); }
      var queueBatches, queueBytes := db.queueBatches, db.queueBytes;
      if row.state == Certified {
        queueBatches, queueBytes := queueBatches + 1, queueBytes + row.size;
        if queueBatches >= U64 || queueBytes >= U64 { return Err(ArithmeticOverflow); }
        if queueBatches > cfg.maxQueueBatches || queueBytes > cfg.maxQueueBytes { return Err(QueueFull); }
      }
      if db.sequence + 1 >= U64 { return Err(ArithmeticOverflow); }
      LatchSound(cfg, db, e, queueBatches, queueBytes);
      db := Written(db, e, LatchedRow(row), queueBatches, queueBytes);
      r := Ok(true);
    }

    /** An audit answers with the state of an intact row and latches any other. */
    method AuditBatch(e: Envelope) returns (r: Result<State>)
      requires Sound(cfg, db)
      modifies this
      ensures Sound(cfg, db) && Step(old(db), db)
      ensures r.Err? ==> db == old(db)
      ensures r.Ok? <==> e in old(db).batches && (Settles(cfg, old(db), e) || LatchOk(cfg, old(db), e))
      ensures e in old(db).batches && Settles(cfg, old(db), e) ==> r == Ok(old(db).batches[e].state) && db == old(db)
      ensures r.Ok? && !Settles(cfg, old(db), e) ==>
                r.value == Unavailable && e in db.batches && db.batches[e] == LatchedRow(old(db).batches[e])
    {
      StepRefl(db);
      if e !in db.batches { return Err(NotFound); }
      assert RowOk(cfg, e, db.batches[e]);
      if db.batches[e].state == GarbageCollected { return Ok(GarbageCollected); }
      if Live(cfg, e, db.batches[e]) { return Ok(db.batches[e].state); }
      var latched := LatchUnavailable(e);
      r := if latched.Err? then Err(latched.code) else Ok(Unavailable);
    }

    /** Repair restores exactly the content of the immutable manifest, and the state the batch had earned. */
    method RepairBatch(batch: Batch, author: Author) returns (r: Result<State>)
      requires Sound(cfg, db)
      modifies this
      ensures Sound(cfg, db) && Step(old(db), db)
      ensures r.Err? ==> db == old(db)
      ensures r.Ok? <==> RepairOk(cfg, old(db), batch, author)
      ensures r.Ok? ==> batch.envelope in old(db).batches && batch.envelope in db.batches
                        && db.batches[batch.envelope] == RepairedRow(old(db).batches[batch.envelope], batch.content)
                        && Live(cfg, batch.envelope, db.batches[batch.envelope])
                        && r.value == db.batches[batch.envelope].state
    {
      StepRefl(db);
      var e := batch.envelope;
      if !cfg.exact(batch) || !cfg.rules.authored(author, e) { return Err(InvalidSignature); }
      var audited := Open();
      if e !in db.batches { return Err(NotFound); }
      var row := db.batches[e];
      assert RowOk(cfg, e, row);
      if row.state != Unavailable { return Err(InvalidRepair); }
      if e.author !in cfg.authorities || cfg.authorities[e.author].key != author.key { return Err(UnauthorizedAuthor); }
      if row.repairs + 1 >= U64 { return Err(ArithmeticOverflow); }
      if OfManifest(e, author, batch.content) != row.manifest { return Err(InvalidRepair); }
      var queueBatches, queueBytes := db.queueBatches, db.queueBytes;
      CountersCover(cfg, db, e);
      if row.certificate.Some? {
        if queueBatches < 1 || queueBytes < row.size { return Err(TamperDetected); }
        queueBatches, queueBytes := queueBatches - 1, queueBytes - row.size;
      }
      if db.sequence + 1 >= U64 { return Err(ArithmeticOverflow); }
      RepairSound(cfg, db, e, batch.content, queueBatches, queueBytes);
      db := Written(db, e, RepairedRow(row, batch.content), queueBatches, queueBytes);
      r := Ok(db.batches[e].state);
    }

    /** Retention may be extended while active, or released once both bounds have passed. */
    method UpdateObligation(e: Envelope, update: Obligation -> Result<Obligation>) returns (r: Result<Obligation>)
      requires Sound(cfg, db)
      requires forall o :: update(o).Ok? && ObligationOk(o) ==>
                 Later(o, update(o).value) && ObligationOk(update(o).value) && update(o).value.status != Collected
      modifies this
      ensures Sound(cfg, db) && Step(old(db), db)
      ensures r.Err? ==> db == old(db)
      ensures r.Ok? <==> UpdateOk(old(db), e, update)
      ensures r.Ok? ==>
                e in old(db).batches && old(db).batches[e].state == Certified && old(db).batches[e].obligation.Some?
                        && r == update(old(db).batches[e].obligation.value)
                        && e in db.batches && db.batches[e] == old(db).batches[e].(obligation := Some(r.value))
    {
      StepRefl(db);
      var audited := Open();
      if e !in db.batches { return Err(NotFound); }
      var row := db.batches[e];
      assert RowOk(cfg, e, row);
      if !Fresh(row) { return Err(TamperDetected); }
      if row.state != Certified { return Err(InvalidState); }
      var next := update(row.obligation.value);
      if next.Err? { return next; }
      if db.sequence + 1 >= U64 { return Err(ArithmeticOverflow); }
      ObligationSound(cfg, db, e, next.value);
      db := Written(db, e, row.(obligation := Some(next.value)), db.queueBatches, db.queueBytes);
      r := next;
    }

    /** Collection needs a permit for the exact current obligation, which must have been released. */
    method GarbageCollect(permit: Permit) returns (r: Result<Obligation>)
      requires Sound(cfg, db)
      modifies this
      ensures Sound(cfg, db) && Step(old(db), db)
      ensures r.Err? ==> db == old(db)
      ensures r.Ok? <==> CollectOk(cfg, old(db), permit)
      ensures r.Ok? ==> permit.batch in old(db).batches && old(db).batches[permit.batch].state == Certified
                        && old(db).batches[permit.batch].obligation.Some?
                        && old(db).batches[permit.batch].obligation.value.status == Released
                        && permit.batch in db.batches
                        && db.batches[permit.batch] == CollectedRow(old(db).batches[permit.batch], r.value)
    {
      StepRefl(db);
      r := ExamineCollection(permit);
      if r.Err? { return; }
      var row := db.batches[permit.batch];
      CollectSound(cfg, db, permit.batch, r.value);
      db := Written(db, permit.batch, CollectedRow(row, r.value), db.queueBatches, db.queueBytes);
    }

    /** The checks of a collection, in order, and the obligation it would leave. */
    method ExamineCollection(permit: Permit) returns (r: Result<Obligation>)
      requires Sound(cfg, db)
      ensures r.Ok? <==> CollectOk(cfg, db, permit)
      ensures r.Ok? ==> r == Collect(db.batches[permit.batch].obligation.value, permit.height)
                        && Later(db.batches[permit.batch].obligation.value, r.value) && ObligationOk(r.value)
    {
      if permit.storeId != cfg.storeId { return Err(Conflict); }
      var audited := Open();
      if permit.batch !in db.batches { return Err(NotFound); }
      var row := db.batches[permit.batch];
      assert RowOk(cfg, permit.batch, row);
      if !Fresh(row) { return Err(TamperDetected); }
      if row.state != Certified { return Err(EarlyCollection); }
      var o := row.obligation.value;
      if !Authorises(cfg, permit, o) { return Err(Conflict); }
      if permit.epoch <= o.retainUntil || permit.height <= o.holdUntil { return Err(EarlyCollection); }
      r := Collect(o, permit.height);
      if r.Ok? && db.sequence + 1 >= U64 { return Err(ArithmeticOverflow); }
    }
  }

  /** The journal holds this body at its coordinate. */
  ghost predicate Journalled(t: Tables, b: Body)
  {
    CoordinateOf(b) in t.journal && t.journal[CoordinateOf(b)].body == b
  }

  /** The journal holds this signed attestation. */
  ghost predicate Holds(t: Tables, a: Attestation)
  {
    Journalled(t, a.body) && a == Signed(a.body, a.signature)
    && t.journal[CoordinateOf(a.body)].signature == Some(a.signature)
  }

  lemma {:induction false} HoldsKept(s: Tables, t: Tables, a: Attestation)
    requires Evolves(s, t) && Holds(s, a)
    ensures Holds(t, a)
  {
    assert EntryKept(s.journal[CoordinateOf(a.body)], t.journal[CoordinateOf(a.body)]);
  }

  /** No two attestations of one journal are evidence against their attestor. */
  lemma {:induction false} NoEquivocation(c: Config, t: Tables, left: Attestation, right: Attestation)
    requires c.rules.Valid() && Holds(t, left) && Holds(t, right)
    ensures NewEvidence(c.rules, c.committee, left, right).Err?
  {
    EvidenceExact(c.rules, c.committee, left, right);
  }

  // ---------- whole runs ----------

  datatype Op =
    | Admit(batch: Batch, author: Author)
    | Prepare(e: Envelope, ordinal: nat)
    | Complete(intent: Intent, signature: Bytes)
    | Certify(cert: Certificate)
    | Corrupt(e: Envelope, bytes: Bytes)
    | Audit(e: Envelope)
    | Repair(batch: Batch, author: Author)
    | Prolong(e: Envelope, retainUntil: nat, holdUntil: nat)
    | Free(e: Envelope, epoch: nat, height: nat)
    | Sweep(permit: Permit)

  lemma {:induction false} ExtendLater(o: Obligation, retainUntil: nat, holdUntil: nat)
    requires ObligationOk(o) && Extend(o, retainUntil, holdUntil).Ok?
    ensures var n := Extend(o, retainUntil, holdUntil).value; Later(o, n) && ObligationOk(n) && n.status == Active
  {
  }

  lemma {:induction false} ReleaseLater(o: Obligation, epoch: nat, height: nat)
    requires ObligationOk(o) && Release(o, epoch, height).Ok?
    ensures var n := Release(o, epoch, height).value; Later(o, n) && ObligationOk(n) && n.status == Released
    ensures epoch > o.retainUntil && height > o.holdUntil
  {
  }

  /** The attestation an operation hands out. */
  function HandedOut(c: Config, t: Tables, op: Op): Option<Attestation>
  {
    match op
    case Prepare(e, ordinal) =>
      if PrepareOk(c, t, e, ordinal) && Preparing(c, t, e, ordinal).Attested?
      then Some(Preparing(c, t, e, ordinal).attestation) else None
    case Complete(intent, signature) =>
      if CompleteOk(c, t, intent, signature) then Some(Signed(intent.body, signature)) else None
    case _ => None
  }

  /** One operation; an attestation it hands out is in the journal. */
  method Perform(store: Store, op: Op) returns (out: Option<Attestation>)
    requires Sound(store.cfg, store.db)
    modifies store
    ensures Sound(store.cfg, store.db) && Step(old(store.db), store.db)
    ensures out == HandedOut(store.cfg, old(store.db), op) && (out.Some? ==> Holds(store.db, out.value))
  {
    out := None;
    match op
    case Admit(batch, author) => { var r := store.AdmitBatch(batch, author); }
    case Prepare(e, ordinal) => {
      var r := store.PrepareAttestation(e, ordinal);
      if r.Ok? && r.value.Attested? { out := Some(r.value.attestation); }
    }
    case Complete(intent, signature) => {
      var r := store.CompleteAttestation(intent, signature);
      if r.Ok? { out := Some(r.value); }
    }
    case Certify(cert) => { var r := store.AdmitCertificate(cert); }
    case Corrupt(e, bytes) => { store.CorruptContent(e, bytes); }
    case Audit(e) => { var r := store.AuditBatch(e); }
    case Repair(batch, author) => { var r := store.RepairBatch(batch, author); }
    case Prolong(e, retainUntil, holdUntil) => { ProlongObligation(store, e, retainUntil, holdUntil); }
    case Free(e, epoch, height) => { FreeObligation(store, e, epoch, height); }
    case Sweep(permit) => { var r := store.GarbageCollect(permit); }
  }

  method ProlongObligation(store: Store, e: Envelope, retainUntil: nat, holdUntil: nat)
    requires Sound(store.cfg, store.db)
    modifies store
    ensures Sound(store.cfg, store.db) && Step(old(store.db), store.db)
  {
    forall o | ObligationOk(o) && Extend(o, retainUntil, holdUntil).Ok?
      ensures var n := Extend(o, retainUntil, holdUntil).value; Later(o, n) && ObligationOk(n) && n.status == Active
    { ExtendLater(o, retainUntil, holdUntil); }
    var r := store.UpdateObligation(e, o => Extend(o, retainUntil, holdUntil));
  }

  method FreeObligation(store: Store, e: Envelope, epoch: nat, height: nat)
    requires Sound(store.cfg, store.db)
    modifies store
    ensures Sound(store.cfg, store.db) && Step(old(store.db), store.db)
  {
    forall o | ObligationOk(o) && Release(o, epoch, height).Ok?
      ensures var n := Release(o, epoch, height).value; Later(o, n) && ObligationOk(n) && n.status == Released
    { ReleaseLater(o, epoch, height); }
    var r := store.UpdateObligation(e, o => Release(o, epoch, height));
  }

  /** A history of sound states joined by legal steps. */
  ghost predicate Legal(c: Config, trace: seq<Tables>)
  {
    trace != [] && Sound(c, trace[|trace| - 1])
    && (|trace| > 1 ==> Legal(c, trace[..|trace| - 1]) && Step(trace[|trace| - 2], trace[|trace| - 1]))
  }

  lemma {:induction false} LegalNext(c: Config, trace: seq<Tables>, t: Tables)
    requires Legal(c, trace) && Sound(c, t) && Step(trace[|trace| - 1], t)
    ensures Legal(c, trace + [t])
  {
    assert (trace + [t])[..|trace|] == trace;
  }

  /** What was certified, attested or collected at any point of a legal history stays so. */
  lemma {:induction false} LegalEvolves(c: Config, trace: seq<Tables>, i: nat)
    requires Legal(c, trace) && i < |trace|
    ensures Evolves(trace[i], trace[|trace| - 1])
  {
    if i == |trace| - 1 {
      StepRefl(trace[i]);
    } else {
      var rest := trace[..|trace| - 1];
      assert rest[i] == trace[i] && rest[|rest| - 1] == trace[|trace| - 2];
      LegalEvolves(c, rest, i);
      EvolvesOn(trace[i], trace[|trace| - 2], trace[|trace| - 1]);
    }
  }

  lemma {:induction false} EvolvesOn(s: Tables, t: Tables, u: Tables)
    requires Evolves(s, t) && Step(t, u)
    ensures Evolves(s, u)
  {
    EvolvesTrans(s, t, u);
  }

  /** What was certified, attested or collected stays so between any two points of a legal history. */
  lemma {:induction false} LegalBetween(c: Config, trace: seq<Tables>, i: nat, j: nat)
    requires Legal(c, trace) && i <= j < |trace|
    ensures Evolves(trace[i], trace[j])
    decreases |trace|
  {
    if j == |trace| - 1 {
      LegalEvolves(c, trace, i);
    } else {
      var rest := trace[..|trace| - 1];
      assert rest[i] == trace[i] && rest[j] == trace[j];
      LegalBetween(c, rest, i, j);
    }
  }

  /** One answer for each operation: the attestation it hands out, which the journal then holds. */
  ghost predicate Answers(c: Config, trace: seq<Tables>, ops: seq<Op>, out: seq<Option<Attestation>>)
  {
    && |out| == |ops| && |trace| == |ops| + 1
    && forall i :: 0 <= i < |ops| ==> AnsweredAt(c, trace[i], ops[i], trace[i + 1], out[i])
  }

  ghost predicate AnsweredAt(c: Config, s: Tables, op: Op, t: Tables, out: Option<Attestation>)
  {
    out == HandedOut(c, s, op) && (out.Some? ==> Holds(t, out.value))
  }

  lemma {:induction false} AnswersNext(c: Config, trace: seq<Tables>, ops: seq<Op>, i: nat,
                                       out: seq<Option<Attestation>>, t: Tables, more: Option<Attestation>)
    requires i < |ops| && Answers(c, trace, ops[..i], out) && AnsweredAt(c, trace[i], ops[i], t, more)
    ensures Answers(c, trace + [t], ops[..i + 1], out + [more])
  {
    var longer, all := trace + [t], out + [more];
    forall k | 0 <= k < i + 1 ensures AnsweredAt(c, longer[k], ops[..i + 1][k], longer[k + 1], all[k]) {
      if k < i { assert AnsweredAt(c, trace[k], ops[..i][k], trace[k + 1], out[k]); }
    }
  }

  /** An attestation in the journal is there at every later point. */
  lemma {:induction false} HeldLater(c: Config, trace: seq<Tables>, a: Attestation, i: nat, j: nat)
    requires Legal(c, trace) && i <= j < |trace| && Holds(trace[i], a)
    ensures Holds(trace[j], a)
  {
    LegalBetween(c, trace, i, j);
    HoldsKept(trace[i], trace[j], a);
  }

  /**
   Any run.  The invariant holds after every operation and each operation is a legal step.  There is
   one answer for each operation; an attestation handed out stays in the journal, and no two
   attestations ever handed out conflict.
   */
  method Run(store: Store, ops: seq<Op>) returns (out: seq<Option<Attestation>>, ghost trace: seq<Tables>)
    requires Sound(store.cfg, store.db)
    modifies store
    ensures |trace| == |ops| + 1 && trace[0] == old(store.db) && trace[|ops|] == store.db && Legal(store.cfg, trace)
    ensures Answers(store.cfg, trace, ops, out)
    ensures forall i, j :: 0 <= i < j < |trace| && out[i].Some? ==> Holds(trace[j], out[i].value)
    ensures forall i, j :: 0 <= i < |ops| && 0 <= j < |ops| && out[i].Some? && out[j].Some? ==>
              NewEvidence(store.cfg.rules, store.cfg.committee, out[i].value, out[j].value).Err?
  {
    out, trace := [], [store.db];
    var i := 0;
    while i < |ops|
      invariant 0 <= i <= |ops| && |trace| == i + 1 && trace[0] == old(store.db) && trace[i] == store.db
      invariant Legal(store.cfg, trace) && Answers(store.cfg, trace, ops[..i], out)
    {
      var more := Perform(store, ops[i]);
      AnswersNext(store.cfg, trace, ops, i, out, store.db, more);
      LegalNext(store.cfg, trace, store.db);
      out, trace, i := out + [more], trace + [store.db], i + 1;
    }
    assert ops[..i] == ops;
    AnswersLast(store.cfg, trace, ops, out);
    NoConflicts(store.cfg, store.db, out);
  }

  lemma {:induction false} AnswersLast(c: Config, trace: seq<Tables>, ops: seq<Op>, out: seq<Option<Attestation>>)
    requires Legal(c, trace) && Answers(c, trace, ops, out)
    ensures forall i, j :: 0 <= i < j < |trace| && out[i].Some? ==> Holds(trace[j], out[i].value)
  {
    forall i, j | 0 <= i < j < |trace| && out[i].Some? ensures Holds(trace[j], out[i].value) {
      assert AnsweredAt(c, trace[i], ops[i], trace[i + 1], out[i]);
      HeldLater(c, trace, out[i].value, i + 1, j);
    }
  }

  lemma {:induction false} NoConflicts(c: Config, t: Tables, out: seq<Option<Attestation>>)
    requires c.rules.Valid() && forall i :: 0 <= i < |out| && out[i].Some? ==> Holds(t, out[i].value)
    ensures forall i, j :: 0 <= i < |out| && 0 <= j < |out| && out[i].Some? && out[j].Some? ==>
              NewEvidence(c.rules, c.committee, out[i].value, out[j].value).Err?
  {
    forall i, j | 0 <= i < |out| && 0 <= j < |out| && out[i].Some? && out[j].Some?
      ensures NewEvidence(c.rules, c.committee, out[i].value, out[j].value).Err?
    {
      NoEquivocation(c, t, out[i].value, out[j].value);
    }
  }

  // ---------- the committee of stores ----------

  /** What a member's store went through. */
  datatype History = History(cfg: Config, trace: seq<Tables>)

  /**
   An honest member: its store had a legal history, and whatever its key signed had been
   journalled at some point of it, each attestation perhaps at a different one.
   */
  ghost predicate SignsJournalled(rules: Rules, c: Committee, id: Id, h: History)
  {
    && Legal(h.cfg, h.trace)
    && forall x: Attestation :: AttestationOk(rules, c, x) && x.body.attestor == id ==>
         exists i :: 0 <= i < |h.trace| && Journalled(h.trace[i], x.body)
  }

  ghost function Bodies(t: Tables): map<Coordinate, Body> { map k | k in t.journal :: t.journal[k].body }

  /** What was journalled at any point of a legal history is journalled at its end. */
  lemma {:induction false} JournalledAtEnd(h: History, i: nat, b: Body)
    requires Legal(h.cfg, h.trace) && i < |h.trace| && Journalled(h.trace[i], b)
    ensures Journalled(h.trace[|h.trace| - 1], b)
  {
    LegalEvolves(h.cfg, h.trace, i);
    assert EntryKept(h.trace[i].journal[CoordinateOf(b)], h.trace[|h.trace| - 1].journal[CoordinateOf(b)]);
  }

  lemma {:induction false} HonestAtEnd(rules: Rules, c: Committee, id: Id, h: History)
    requires SignsJournalled(rules, c, id, h)
    ensures Honest(rules, c, id, Bodies(h.trace[|h.trace| - 1]))
  {
    forall x: Attestation | AttestationOk(rules, c, x) && x.body.attestor == id
      ensures Journalled(h.trace[|h.trace| - 1], x.body)
    {
      var i :| 0 <= i < |h.trace| && Journalled(h.trace[i], x.body);
      JournalledAtEnd(h, i, x.body);
    }
  }

  /**
   Every member outside `faulty` signs only what its own store has journalled first, at any points
   of any legal history.  Then a single author sequence never gets certificates for two batches.
   */
  lemma {:induction false} CommitteeSafety(rules: Rules, c: Committee, stores: map<Id, History>, faulty: set<Id>,
                                           a: Certificate, b: Certificate)
    requires rules.Valid() && Accepted(rules, c, a) && Accepted(rules, c, b)
    requires a.envelope.author == b.envelope.author && a.envelope.sequence == b.envelope.sequence
    requires 3 * Weight(c.members, faulty) <= Total(c.members)
    requires forall m :: m in c.members && m.id !in faulty ==>
               m.id in stores && SignsJournalled(rules, c, m.id, stores[m.id])
    ensures a.envelope == b.envelope
  {
    var journals := map id | id in stores && stores[id].trace != [] :: Bodies(stores[id].trace[|stores[id].trace| - 1]);
    forall m | m in c.members && m.id !in faulty ensures m.id in journals && Honest(rules, c, m.id, journals[m.id]) {
      HonestAtEnd(rules, c, m.id, stores[m.id]);
    }
    OneBatchPerSequence(rules, c, a, b, faulty, journals);
  }
}
