/**
 Weighted data-availability committees: availability certificates, equivocation evidence
 and the quorum argument that ties them together.  Hashes are injective constructors and
 signatures an opaque predicate.
 */
module DaCommittee {
  import opened Wrappers

  const U128 := 0x1_00000000_00000000_00000000_00000000
  const STRICT_SCHEME := 1
  const TRANSACTION_BATCH := 0

  type Id = nat
  type Bytes = seq<bv8>

  datatype Code = InvalidCommittee | ArithmeticOverflow | InvalidContext | InvalidBounds | InvalidSignature
    | IdentifierMismatch | InsufficientWeight | Conflict | InvalidEvidence | UnauthorizedAuthor | SequenceConflict
    | QuotaExceeded | QueueFull | NotFound | InvalidState | TamperDetected | InvalidRepair | RetentionViolation
    | EarlyCollection

  type Result<+T> = Try<T, Code>

  datatype Member = Member(id: Id, key: Id, weight: nat)

  datatype Committee = Committee(context: nat, epoch: nat, members: seq<Member>, threshold: nat, retention: nat,
                                 maxAuthorBytes: nat, maxBatchBytes: nat, maxBatchItems: nat, maxOutstanding: nat)

  datatype Digest = Plain(n: nat) | OfCommittee(c: Committee) | OfEnvelope(e: Envelope) | OfBody(b: Body)
    | SigningRoot(id: Digest) | OfEvidence(left: Attestation, right: Attestation)
    | OfCertificate(envelope: Envelope, author: Author, attestations: seq<Attestation>)
    | OfManifest(batch: Envelope, writer: Author, content: Bytes)

  datatype Envelope = Envelope(context: nat, namespace: nat, epoch: nat, committee: Digest, author: Bytes,
                               sequence: nat, items: nat, size: nat, chunks: nat, contentRoot: nat, chunkRoot: nat,
                               retentionEnd: nat)

  datatype Author = Author(key: Id, signature: Bytes)

  datatype Body = Body(context: nat, namespace: nat, epoch: nat, committee: Digest, batch: Digest, contentRoot: nat,
                       chunkRoot: nat, retentionEnd: nat, attestor: Id, author: Bytes, sequence: nat, ordinal: nat,
                       record: Digest)

  datatype Attestation = Attestation(body: Body, id: Digest, scheme: nat, signature: Bytes)
  datatype Certificate = Certificate(envelope: Envelope, author: Author, attestations: seq<Attestation>, id: Digest)
  datatype Evidence = Evidence(left: Attestation, right: Attestation, id: Digest)

  /** What two attestations of one attestor must not disagree on. */
  datatype Coordinate = Coordinate(context: nat, namespace: nat, epoch: nat, attestor: Id, author: Bytes, sequence: nat)

  /** The opaque checks: contexts, keys, strict signatures, author statements, and the byte order of digests. */
  datatype Rules = Rules(contextOk: nat -> bool, keyOk: Id -> bool, signed: (Id, Digest, Bytes) -> bool,
                         authored: (Author, Envelope) -> bool, le: (Digest, Digest) -> bool)
  {
    ghost predicate Valid()
    {
      && (forall a, b :: le(a, b) || le(b, a))
      && (forall a, b :: le(a, b) && le(b, a) ==> a == b)
    }
  }

  // ---------- weight ----------

  function Total(members: seq<Member>): nat
  {
    if members == [] then 0 else Total(members[..|members| - 1]) + members[|members| - 1].weight
  }

  /** The weight the members of a set of ids hold. */
  ghost function Weight(members: seq<Member>, ids: set<Id>): nat
  {
    if members == [] then 0
    else
      var last := members[|members| - 1];
      Weight(members[..|members| - 1], ids) + if last.id in ids then last.weight else 0
  }

  lemma {:induction false} WeightSplit(members: seq<Member>, a: set<Id>, b: set<Id>)
    ensures Weight(members, a) + Weight(members, b) == Weight(members, a + b) + Weight(members, a * b)
  {
    if members != [] { WeightSplit(members[..|members| - 1], a, b); }
  }

  lemma {:induction false} WeightBound(members: seq<Member>, a: set<Id>)
    ensures Weight(members, a) <= Total(members)
  {
    if members != [] { WeightBound(members[..|members| - 1], a); }
  }

  lemma {:induction false} WeightSubset(members: seq<Member>, a: set<Id>, b: set<Id>)
    requires forall m :: m in members && m.id in a ==> m.id in b
    ensures Weight(members, a) <= Weight(members, b)
  {
    if members != [] { WeightSubset(members[..|members| - 1], a, b); }
  }

  lemma {:induction false} NoWeight(members: seq<Member>)
    ensures Weight(members, {}) == 0
  {
    if members != [] { NoWeight(members[..|members| - 1]); }
  }

  // ---------- the committee ----------

  function Find(members: seq<Member>, id: Id): (r: Option<Member>)
    ensures r.Some? ==> r.value in members && r.value.id == id
    ensures r.None? ==> forall m :: m in members ==> m.id != id
  {
    if members == [] then None
    else if members[|members| - 1].id == id then Some(members[|members| - 1])
    else Find(members[..|members| - 1], id)
  }

  ghost predicate MemberOk(rules: Rules, m: Member) { m.weight > 0 && rules.keyOk(m.key) }

  function Keys(members: seq<Member>): set<Id>
  {
    if members == [] then {} else Keys(members[..|members| - 1]) + {members[|members| - 1].key}
  }

  /** Strictly ordered members with distinct usable keys and positive weights. */
  ghost predicate Ordered(rules: Rules, members: seq<Member>)
  {
    members == [] ||
    var rest, m := members[..|members| - 1], members[|members| - 1];
    Ordered(rules, rest) && MemberOk(rules, m) && m.key !in Keys(rest) && (rest != [] ==> rest[|rest| - 1].id < m.id)
  }

  lemma {:induction false} OrderedPrefix(rules: Rules, members: seq<Member>, n: nat)
    requires n <= |members| && Ordered(rules, members)
    ensures Ordered(rules, members[..n])
  {
    if n == |members| {
      assert members[..n] == members;
    } else {
      OrderedPrefix(rules, members[..|members| - 1], n);
      assert members[..|members| - 1][..n] == members[..n];
    }
  }

  /** Ids ascend over the whole list, not just between neighbours. */
  lemma {:induction false} OrderedIds(rules: Rules, members: seq<Member>)
    requires Ordered(rules, members)
    ensures Ascending(members)
  {
    if members != [] { OrderedIds(rules, members[..|members| - 1]); }
  }

  ghost predicate Ascending(members: seq<Member>)
  {
    forall i, j :: 0 <= i < j < |members| ==> members[i].id < members[j].id
  }

  ghost predicate CommitteeOk(rules: Rules, c: Committee)
  {
    && rules.contextOk(c.context)
    && c.retention > 0 && c.maxAuthorBytes > 0 && c.maxBatchBytes > 0 && c.maxBatchItems > 0 && c.maxOutstanding > 0
    && c.members != [] && Ordered(rules, c.members)
    && 2 * Total(c.members) < U128 && c.threshold == 2 * Total(c.members) / 3 + 1
  }

  lemma {:induction false} TotalGrows(members: seq<Member>, n: nat)
    requires n <= |members|
    ensures Total(members[..n]) <= Total(members)
    decreases |members| - n
  {
    if n == |members| {
      assert members[..n] == members;
    } else {
      assert members[..n + 1][..n] == members[..n];
      TotalGrows(members, n + 1);
    }
  }

  /** The checked sum over the members: exact, or an error exactly when the list is unusable or too heavy. */
  method MemberTotal(rules: Rules, members: seq<Member>) returns (r: Result<nat>)
    ensures r.Ok? <==> members != [] && Ordered(rules, members) && Total(members) < U128
    ensures r.Ok? ==> r.value == Total(members)
    ensures r.Err? ==> r.code == InvalidCommittee || r.code == ArithmeticOverflow
    ensures members != [] && Ordered(rules, members) && r.Err? ==> r.code == ArithmeticOverflow
  {
    if members == [] { return Err(InvalidCommittee); }
    var keys: set<Id> := {};
    var total, i := 0, 0;
    while i < |members|
      invariant 0 <= i <= |members| && Ordered(rules, members[..i])
      invariant total == Total(members[..i]) < U128 && keys == Keys(members[..i])
    {
      var m := members[i];
      assert members[..i + 1][..i] == members[..i];
      TotalGrows(members, i + 1);
      if Ordered(rules, members) { OrderedPrefix(rules, members, i + 1); }
      if m.weight == 0 || !rules.keyOk(m.key) { return Err(InvalidCommittee); }
      if (i > 0 && members[i - 1].id >= m.id) || m.key in keys { return Err(InvalidCommittee); }
      if total + m.weight >= U128 { return Err(ArithmeticOverflow); }
      keys, total, i := keys + {m.key}, total + m.weight, i + 1;
    }
    assert members[..i] == members;
    r := Ok(total);
  }

  /** The check that a quorum can exist never fails: floor(2W/3)+1 is at most W. */
  lemma {:induction false} ThresholdReachable(w: nat)
    requires w > 0
    ensures 2 * w / 3 + 1 <= w
  {
  }

  lemma {:induction false} PositiveTotal(rules: Rules, members: seq<Member>)
    requires members != [] && Ordered(rules, members)
    ensures Total(members) > 0
  {
    assert MemberOk(rules, members[|members| - 1]);
  }

  method ValidateCommittee(rules: Rules, c: Committee) returns (r: Result<bool>)
    ensures r.Ok? <==> CommitteeOk(rules, c)
  {
    if !rules.contextOk(c.context) { return Err(InvalidContext); }
    if c.retention == 0 || c.maxAuthorBytes == 0 || c.maxBatchBytes == 0 || c.maxBatchItems == 0
       || c.maxOutstanding == 0 {
      return Err(InvalidCommittee);
    }
    var total := MemberTotal(rules, c.members);
    if total.Err? { return Err(total.code); }
    if 2 * total.value >= U128 { return Err(ArithmeticOverflow); }
    PositiveTotal(rules, c.members);
    ThresholdReachable(total.value);
    if c.threshold != 2 * total.value / 3 + 1 || c.threshold > total.value { return Err(InvalidCommittee); }
    r := Ok(true);
  }

  /** A new committee takes the threshold floor(2W/3)+1 and is valid, or is refused exactly when no valid one exists. */
  method NewCommittee(rules: Rules, context: nat, epoch: nat, members: seq<Member>, retention: nat, maxAuthorBytes: nat,
                      maxBatchBytes: nat, maxBatchItems: nat, maxOutstanding: nat) returns (r: Result<Committee>)
    ensures r.Ok? ==>
              && CommitteeOk(rules, r.value)
              && r.value == Committee(context, epoch, members, 2 * Total(members) / 3 + 1, retention,
                                      maxAuthorBytes, maxBatchBytes, maxBatchItems, maxOutstanding)
    ensures r.Err? ==> forall threshold ::
              !CommitteeOk(rules, Committee(context, epoch, members, threshold, retention,
                                            maxAuthorBytes, maxBatchBytes, maxBatchItems, maxOutstanding))
  {
    var total := MemberTotal(rules, members);
    if total.Err? { return Err(total.code); }
    if 2 * total.value >= U128 { return Err(ArithmeticOverflow); }
    var c := Committee(context, epoch, members, 2 * total.value / 3 + 1, retention,
                       maxAuthorBytes, maxBatchBytes, maxBatchItems, maxOutstanding);
    var valid := ValidateCommittee(rules, c);
    if valid.Err? { return Err(valid.code); }
    r := Ok(c);
  }

  // ---------- attestations ----------

  function CoordinateOf(b: Body): Coordinate
  {
    Coordinate(b.context, b.namespace, b.epoch, b.attestor, b.author, b.sequence)
  }

  function NewBody(e: Envelope, attestor: Id, ordinal: nat, record: Digest): Body
  {
    Body(e.context, e.namespace, e.epoch, e.committee, OfEnvelope(e), e.contentRoot, e.chunkRoot, e.retentionEnd,
         attestor, e.author, e.sequence, ordinal, record)
  }

  predicate BodyOk(rules: Rules, c: Committee, b: Body)
  {
    && rules.contextOk(b.context) && b.namespace == TRANSACTION_BATCH
    && b.context == c.context && b.epoch == c.epoch && b.committee == OfCommittee(c)
    && b.author != [] && b.sequence > 0 && b.ordinal > 0 && b.retentionEnd > b.epoch
  }

  /** What a strict verification of one attestation establishes. */
  predicate AttestationOk(rules: Rules, c: Committee, a: Attestation)
  {
    && BodyOk(rules, c, a.body)
    && a.scheme == STRICT_SCHEME && a.id == OfBody(a.body)
    && Find(c.members, a.body.attestor).Some?
    && rules.signed(Find(c.members, a.body.attestor).value.key, SigningRoot(OfBody(a.body)), a.signature)
  }

  predicate ShapeOk(rules: Rules, e: Envelope)
  {
    && rules.contextOk(e.context) && e.namespace == TRANSACTION_BATCH
    && e.author != [] && e.sequence > 0 && e.items > 0 && e.size > 0 && e.chunks > 0 && e.retentionEnd > e.epoch
  }

  predicate InContext(c: Committee, e: Envelope)
  {
    e.context == c.context && e.epoch == c.epoch && e.committee == OfCommittee(c) && e.namespace == TRANSACTION_BATCH
  }

  /** The body says exactly what the envelope says. */
  predicate Binds(b: Body, e: Envelope)
  {
    b == NewBody(e, b.attestor, b.ordinal, b.record)
  }

  // ---------- certificates ----------

  ghost function Signers(attestations: seq<Attestation>): set<Id>
  {
    if attestations == [] then {}
    else Signers(attestations[..|attestations| - 1]) + {attestations[|attestations| - 1].body.attestor}
  }

  /** Every attestation verifies and binds the envelope, and attestors strictly ascend. */
  ghost predicate SignedInOrder(rules: Rules, c: Committee, e: Envelope, attestations: seq<Attestation>)
  {
    attestations == [] ||
    var rest, a := attestations[..|attestations| - 1], attestations[|attestations| - 1];
    && SignedInOrder(rules, c, e, rest) && AttestationOk(rules, c, a) && Binds(a.body, e)
    && (rest != [] ==> rest[|rest| - 1].body.attestor < a.body.attestor)
  }

  /** A valid certificate: its signers are distinct members and together reach the threshold. */
  ghost predicate CertificateOk(rules: Rules, c: Committee, e: Envelope, author: Author, attestations: seq<Attestation>)
  {
    && CommitteeOk(rules, c) && ShapeOk(rules, e) && InContext(c, e) && rules.authored(author, e)
    && SignedInOrder(rules, c, e, attestations)
    && Weight(c.members, Signers(attestations)) >= c.threshold
  }

  /** One more signer adds exactly its own weight, however the members are listed. */
  lemma {:induction false} WeightAdd(members: seq<Member>, ids: set<Id>, id: Id)
    requires Ascending(members) && id !in ids
    ensures Weight(members, ids + {id}) ==
            Weight(members, ids) + match Find(members, id) case Some(m) => m.weight case None => 0
  {
    if members != [] {
      var rest := members[..|members| - 1];
      WeightAdd(rest, ids, id);
      if members[|members| - 1].id == id {
        assert forall m :: m in rest ==> m.id != id;
      }
    }
  }

  /** An attestor beyond the last one has not signed yet. */
  lemma {:induction false} NewSigner(rules: Rules, c: Committee, e: Envelope, attestations: seq<Attestation>, x: Id)
    requires SignedInOrder(rules, c, e, attestations)
    requires attestations != [] ==> attestations[|attestations| - 1].body.attestor < x
    ensures x !in Signers(attestations)
  {
    if attestations != [] { NewSigner(rules, c, e, attestations[..|attestations| - 1], x); }
  }

  lemma {:induction false} SignedPrefix(rules: Rules, c: Committee, e: Envelope, attestations: seq<Attestation>, n: nat)
    requires n <= |attestations| && SignedInOrder(rules, c, e, attestations)
    ensures SignedInOrder(rules, c, e, attestations[..n])
  {
    if n == |attestations| {
      assert attestations[..n] == attestations;
    } else {
      SignedPrefix(rules, c, e, attestations[..|attestations| - 1], n);
      assert attestations[..|attestations| - 1][..n] == attestations[..n];
    }
  }

  lemma {:induction false} SignedStep(rules: Rules, c: Committee, e: Envelope, attestations: seq<Attestation>, i: nat)
    requires i < |attestations| && SignedInOrder(rules, c, e, attestations[..i])
    ensures Signers(attestations[..i + 1]) == Signers(attestations[..i]) + {attestations[i].body.attestor}
    ensures SignedInOrder(rules, c, e, attestations[..i + 1]) <==>
            && AttestationOk(rules, c, attestations[i]) && Binds(attestations[i].body, e)
            && (i > 0 ==> attestations[i - 1].body.attestor < attestations[i].body.attestor)
    ensures SignedInOrder(rules, c, e, attestations) ==> SignedInOrder(rules, c, e, attestations[..i + 1])
  {
    assert attestations[..i + 1][..i] == attestations[..i];
    if SignedInOrder(rules, c, e, attestations) { SignedPrefix(rules, c, e, attestations, i + 1); }
  }

  /** The weighted loop over the attestations; the running weight never overflows. */
  method SignedWeight(rules: Rules, c: Committee, e: Envelope, attestations: seq<Attestation>) returns (r: Result<nat>)
    requires CommitteeOk(rules, c)
    ensures r.Ok? <==> SignedInOrder(rules, c, e, attestations)
    ensures r.Ok? ==> r.value == Weight(c.members, Signers(attestations))
    ensures r.Err? ==> r.code != ArithmeticOverflow
  {
    var weight, i := 0, 0;
    NoWeight(c.members);
    while i < |attestations|
      invariant 0 <= i <= |attestations| && SignedInOrder(rules, c, e, attestations[..i])
      invariant weight == Weight(c.members, Signers(attestations[..i]))
    {
      var a := attestations[i];
      SignedStep(rules, c, e, attestations, i);
      if !AttestationOk(rules, c, a) { return Err(InvalidSignature); }
      if (i > 0 && attestations[i - 1].body.attestor >= a.body.attestor) || !Binds(a.body, e) { return Err(Conflict); }
      var m := Find(c.members, a.body.attestor).value;
      NextWeight(rules, c, e, attestations[..i], a);
      if weight + m.weight >= U128 { return Err(ArithmeticOverflow); }
      weight, i := weight + m.weight, i + 1;
    }
    assert attestations[..i] == attestations;
    r := Ok(weight);
  }

  lemma {:induction false} NextWeight(rules: Rules, c: Committee, e: Envelope, before: seq<Attestation>, a: Attestation)
    requires CommitteeOk(rules, c) && SignedInOrder(rules, c, e, before) && Find(c.members, a.body.attestor).Some?
    requires before != [] ==> before[|before| - 1].body.attestor < a.body.attestor
    ensures Weight(c.members, Signers(before) + {a.body.attestor}) ==
            Weight(c.members, Signers(before)) + Find(c.members, a.body.attestor).value.weight < U128
  {
    NewSigner(rules, c, e, before, a.body.attestor);
    OrderedIds(rules, c.members);
    WeightAdd(c.members, Signers(before), a.body.attestor);
    WeightBound(c.members, Signers(before) + {a.body.attestor});
  }

  /** Certificates are built exactly from valid signer sets of enough weight. */
  method BuildCertificate(rules: Rules, c: Committee, e: Envelope, author: Author, attestations: seq<Attestation>)
    returns (r: Result<Certificate>)
    ensures r.Ok? <==> CertificateOk(rules, c, e, author, attestations)
    ensures r.Ok? ==> r.value == Certificate(e, author, attestations, OfCertificate(e, author, attestations))
  {
    var valid := ValidateCommittee(rules, c);
    if valid.Err? { return Err(valid.code); }
    if !ShapeOk(rules, e) { return Err(InvalidBounds); }
    if !InContext(c, e) { return Err(InvalidContext); }
    if !rules.authored(author, e) { return Err(InvalidSignature); }
    NoWeight(c.members);
    if attestations == [] { return Err(InsufficientWeight); }
    var weight := SignedWeight(rules, c, e, attestations);
    if weight.Err? { return Err(weight.code); }
    if weight.value < c.threshold { return Err(InsufficientWeight); }
    r := Ok(Certificate(e, author, attestations, OfCertificate(e, author, attestations)));
  }

  method VerifyCertificate(rules: Rules, c: Committee, cert: Certificate) returns (r: Result<bool>)
    ensures r.Ok? <==> Accepted(rules, c, cert)
  {
    var rebuilt := BuildCertificate(rules, c, cert.envelope, cert.author, cert.attestations);
    if rebuilt.Err? { return Err(rebuilt.code); }
    r := if rebuilt.value == cert then Ok(true) else Err(IdentifierMismatch);
  }

  ghost predicate Accepted(rules: Rules, c: Committee, cert: Certificate)
  {
    && CertificateOk(rules, c, cert.envelope, cert.author, cert.attestations)
    && cert.id == OfCertificate(cert.envelope, cert.author, cert.attestations)
  }

  // ---------- equivocation evidence ----------

  function NewEvidence(rules: Rules, c: Committee, left: Attestation, right: Attestation): Result<Evidence>
  {
    if !AttestationOk(rules, c, left) || !AttestationOk(rules, c, right) then Err(InvalidSignature)
    else if CoordinateOf(left.body) != CoordinateOf(right.body) || left.body.batch == right.body.batch
            || left.id == right.id then
      Err(InvalidEvidence)
    else if rules.le(left.id, right.id) then Ok(Evidence(left, right, OfEvidence(left, right)))
    else Ok(Evidence(right, left, OfEvidence(right, left)))
  }

  function VerifyEvidence(rules: Rules, c: Committee, v: Evidence): Result<bool>
  {
    match NewEvidence(rules, c, v.left, v.right)
    case Err(code) => Err(code)
    case Ok(w) => if w == v then Ok(true) else Err(InvalidEvidence)
  }

  /** Evidence exists for exactly the conflicting pairs, in either order, and always verifies again. */
  lemma {:induction false} EvidenceExact(rules: Rules, c: Committee, left: Attestation, right: Attestation)
    requires rules.Valid()
    ensures NewEvidence(rules, c, left, right).Ok? <==>
            && AttestationOk(rules, c, left) && AttestationOk(rules, c, right)
            && CoordinateOf(left.body) == CoordinateOf(right.body) && left.body.batch != right.body.batch
    ensures NewEvidence(rules, c, left, right).Ok? ==>
            && NewEvidence(rules, c, right, left) == NewEvidence(rules, c, left, right)
            && VerifyEvidence(rules, c, NewEvidence(rules, c, left, right).value).Ok?
  {
    assert rules.le(left.id, right.id) || rules.le(right.id, left.id);
  }

  // ---------- the quorum argument ----------

  lemma {:induction false} Overlap(w: nat, threshold: nat, a: nat, b: nat, both: nat, either: nat)
    requires threshold == 2 * w / 3 + 1 && a >= threshold && b >= threshold && a + b == either + both && either <= w
    ensures 3 * both > w
  {
  }

  /** Any two certificates of one committee share signers of more than a third of the weight. */
  lemma {:induction false} QuorumOverlap(rules: Rules, c: Committee, a: Certificate, b: Certificate)
    requires Accepted(rules, c, a) && Accepted(rules, c, b)
    ensures 3 * Weight(c.members, Signers(a.attestations) * Signers(b.attestations)) > Total(c.members)
  {
    var x, y := Signers(a.attestations), Signers(b.attestations);
    WeightSplit(c.members, x, y);
    WeightBound(c.members, x + y);
    Overlap(Total(c.members), c.threshold, Weight(c.members, x), Weight(c.members, y),
            Weight(c.members, x * y), Weight(c.members, x + y));
  }

  /** The attestation a signer put into a certificate. */
  lemma {:induction false} SignerSigned(rules: Rules, c: Committee, e: Envelope, attestations: seq<Attestation>,
                                        id: Id) returns (a: Attestation)
    requires SignedInOrder(rules, c, e, attestations) && id in Signers(attestations)
    ensures a in attestations && AttestationOk(rules, c, a) && Binds(a.body, e) && a.body.attestor == id
  {
    a := attestations[|attestations| - 1];
    if a.body.attestor != id { a := SignerSigned(rules, c, e, attestations[..|attestations| - 1], id); }
  }

  /** Certificates for two batches at one author sequence. */
  ghost predicate Rival(a: Certificate, b: Certificate)
  {
    a.envelope.author == b.envelope.author && a.envelope.sequence == b.envelope.sequence && a.envelope != b.envelope
  }

  /** Every signer of two rival certificates is convicted by its own two attestations. */
  lemma {:induction false} SharedSignerConvicted(rules: Rules, c: Committee, a: Certificate, b: Certificate,
                                                 id: Id) returns (left: Attestation, right: Attestation)
    requires rules.Valid() && Accepted(rules, c, a) && Accepted(rules, c, b) && Rival(a, b)
    requires id in Signers(a.attestations) * Signers(b.attestations)
    ensures left in a.attestations && right in b.attestations && left.body.attestor == right.body.attestor == id
    ensures NewEvidence(rules, c, left, right).Ok?
  {
    left := SignerSigned(rules, c, a.envelope, a.attestations, id);
    right := SignerSigned(rules, c, b.envelope, b.attestations, id);
    EvidenceExact(rules, c, left, right);
  }

  /** An honest member's key signs only what its store's journal holds for that coordinate. */
  ghost predicate Honest(rules: Rules, c: Committee, id: Id, journal: map<Coordinate, Body>)
  {
    forall a: Attestation :: AttestationOk(rules, c, a) && a.body.attestor == id ==>
      CoordinateOf(a.body) in journal && journal[CoordinateOf(a.body)] == a.body
  }

  lemma {:induction false} NobodyInCommon(rules: Rules, c: Committee, a: Certificate, b: Certificate, id: Id,
                                          journal: map<Coordinate, Body>)
    requires rules.Valid() && Accepted(rules, c, a) && Accepted(rules, c, b) && Rival(a, b)
    requires Honest(rules, c, id, journal)
    ensures id !in Signers(a.attestations) * Signers(b.attestations)
  {
    if id in Signers(a.attestations) * Signers(b.attestations) {
      var left, right := SharedSignerConvicted(rules, c, a, b, id);
      EvidenceExact(rules, c, left, right);
    }
  }

  /** With at most a third of the weight faulty, an author sequence has at most one certified batch. */
  lemma {:induction false} OneBatchPerSequence(rules: Rules, c: Committee, a: Certificate, b: Certificate,
                                               faulty: set<Id>, journals: map<Id, map<Coordinate, Body>>)
    requires rules.Valid() && Accepted(rules, c, a) && Accepted(rules, c, b)
    requires a.envelope.author == b.envelope.author && a.envelope.sequence == b.envelope.sequence
    requires 3 * Weight(c.members, faulty) <= Total(c.members)
    requires forall m :: m in c.members && m.id !in faulty ==>
               m.id in journals && Honest(rules, c, m.id, journals[m.id])
    ensures a.envelope == b.envelope
  {
    if a.envelope != b.envelope {
      QuorumOverlap(rules, c, a, b);
      var shared := Signers(a.attestations) * Signers(b.attestations);
      forall m | m in c.members && m.id in shared ensures m.id in faulty {
        if m.id !in faulty { NobodyInCommon(rules, c, a, b, m.id, journals[m.id]); }
      }
      WeightSubset(c.members, shared, faulty);
    }
  }
}
