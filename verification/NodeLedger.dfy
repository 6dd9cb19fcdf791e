/**
 The node commit ledger: records are written aside, renamed into place and synced before the
 head file names them.  The disk keeps apart what is visible and what a power cut must keep.
 */
module NodeLedger {
  import opened Wrappers
  import opened Checkpoints

  const MAX_RECORDS := 1_000_000

  datatype Code = InvalidState | SourceMismatch | TargetNotSuccessor | ThirdState | Io
  type Result<+T> = Try<T, Code>

  datatype Digest = OfAnchor(anchor: Checkpoint) | OfRecord(record: Record)
  datatype Record = Record(sequence: nat, previous: Digest, source: Checkpoint, target: Checkpoint)
  datatype HeadFile = HeadFile(sequence: nat, digest: Digest)

  /** The in-memory head of an owner. */
  datatype Head = Head(sequence: nat, checkpoint: Checkpoint, digest: Digest)

  /**
   `kept` are the records whose names are durable, `heads` the versions of the head file a power
   cut may leave behind.  File contents are synced before every rename, so a name that survives
   has its content.
   */
  datatype Disk = Disk(anchor: Checkpoint, records: map<nat, Record>, kept: set<nat>, temps: set<nat>,
                       head: HeadFile, heads: set<HeadFile>, headTemps: set<nat>)

  // ---------- the chain of records ----------

  function Tip(d: Disk, n: nat): Checkpoint
    requires n == 0 || n in d.records
  {
    if n == 0 then d.anchor else d.records[n].target
  }

  function TipDigest(d: Disk, n: nat): Digest
    requires n == 0 || n in d.records
  {
    if n == 0 then OfAnchor(d.anchor) else OfRecord(d.records[n])
  }

  predicate LinkOk(d: Disk, n: nat)
    requires n > 0 && n in d.records && (n == 1 || n - 1 in d.records)
  {
    var r := d.records[n];
    r.sequence == n && r.previous == TipDigest(d, n - 1) && r.source == Tip(d, n - 1) && Succeeds(r.target, r.source)
  }

  /** Records 1..n are present and chained from the anchor. */
  ghost predicate Chained(d: Disk, n: nat)
  {
    n == 0 || (n in d.records && (n == 1 || n - 1 in d.records) && LinkOk(d, n) && Chained(d, n - 1))
  }

  ghost predicate Upto(s: set<nat>, n: nat) { forall i :: i in s <==> 0 < i <= n }

  /** The head file names a durable record and its digest. */
  ghost predicate HeadOk(d: Disk, m: nat, h: HeadFile)
  {
    h.sequence <= m && (h.sequence == 0 || h.sequence in d.records) && h.digest == TipDigest(d, h.sequence)
  }

  /** n visible records, of which all but at most the last are durable; no head is ahead of the durable ones. */
  ghost predicate Sound(d: Disk, n: nat, m: nat)
  {
    && n <= MAX_RECORDS && m <= n <= m + 1
    && Upto(d.records.Keys, n) && Upto(d.kept, m) && Chained(d, n)
    && d.head in d.heads && forall h :: h in d.heads ==> HeadOk(d, m, h)
  }

  function HeadAt(d: Disk, n: nat): Head
    requires n == 0 || n in d.records
  {
    Head(n, Tip(d, n), TipDigest(d, n))
  }

  // ---------- disk steps ----------

  function Synced(d: Disk): Disk { d.(kept := d.records.Keys) }
  function RootSynced(d: Disk): Disk { d.(heads := {d.head}) }
  function Renamed(d: Disk, n: nat, r: Record): Disk { d.(records := d.records[n := r], temps := d.temps - {n}) }
  function Published(d: Disk, h: HeadFile): Disk
  {
    d.(head := h, heads := d.heads + {h}, headTemps := d.headTemps - {h.sequence})
  }

  /** The disk steps that cleaning a directory takes, and publishing the head where it lags behind. */
  function RepairCost(d: Disk, n: nat): nat
  {
    |d.temps| + |d.headTemps| + 2 + if d.head.sequence < n then 4 else 0
  }

  /** The disk steps that writing, publishing and reading back one record takes in a clean directory. */
  const EXTEND_COST := 9

  function AppendCost(d: Disk, n: nat, target: Checkpoint): nat
    requires n == 0 || n in d.records
  {
    RepairCost(d, n) + if Tip(d, n) == target then 0 else EXTEND_COST
  }

  /** After a power cut every durable name is there, and any other visible name may be. */
  function AfterCut(d: Disk, keep: set<nat>, survivor: HeadFile, temps: set<nat>, headTemps: set<nat>): Disk
  {
    var names := d.kept + keep;
    var h := if survivor in d.heads then survivor else d.head;
    Disk(d.anchor, map i | i in d.records && i in names :: d.records[i], d.records.Keys * names, temps, h, {h},
         headTemps)
  }

  lemma {:induction false} LinkAt(d: Disk, n: nat, i: nat)
    requires Chained(d, n) && 0 < i <= n
    ensures i in d.records && (i == 1 || i - 1 in d.records) && LinkOk(d, i) && Chained(d, i)
  {
    if i < n { LinkAt(d, n - 1, i); }
  }

  /** The chain does not depend on anything but the anchor and the records below. */
  lemma {:induction false} SameChain(d: Disk, e: Disk, n: nat)
    requires Chained(d, n) && e.anchor == d.anchor
    requires forall i :: 0 < i <= n && i in d.records ==> i in e.records && e.records[i] == d.records[i]
    ensures Chained(e, n)
  {
    if n > 0 { SameChain(d, e, n - 1); }
  }

  lemma {:induction false} SyncSound(d: Disk, n: nat, m: nat)
    requires Sound(d, n, m)
    ensures Sound(Synced(d), n, n)
  {
    SameChain(d, Synced(d), n);
    forall h | h in d.heads ensures HeadOk(Synced(d), n, h) { assert HeadOk(d, m, h); }
  }

  lemma {:induction false} RootSyncSound(d: Disk, n: nat, m: nat)
    requires Sound(d, n, m)
    ensures Sound(RootSynced(d), n, m)
  {
    SameChain(d, RootSynced(d), n);
    assert HeadOk(d, m, d.head);
  }

  lemma {:induction false} PublishSound(d: Disk, n: nat, m: nat, h: HeadFile)
    requires Sound(d, n, m) && HeadOk(d, m, h)
    ensures Sound(Published(d, h), n, m)
  {
    var e := Published(d, h);
    SameChain(d, e, n);
    forall x | x in e.heads ensures HeadOk(e, m, x) { assert HeadOk(d, m, x); }
  }

  /** A record renamed into place extends the chain but is not durable yet. */
  lemma {:induction false} RenameSound(d: Disk, n: nat, r: Record)
    requires Sound(d, n, n) && n < MAX_RECORDS
    requires r.sequence == n + 1 && (n == 0 || n in d.records) && r.previous == TipDigest(d, n) && r.source == Tip(d, n)
    requires Succeeds(r.target, r.source)
    ensures Sound(Renamed(d, n + 1, r), n + 1, n)
  {
    var e := Renamed(d, n + 1, r);
    SameChain(d, e, n);
    forall h | h in e.heads ensures HeadOk(e, n, h) { assert HeadOk(d, n, h); }
  }

  lemma {:induction false} TempsSound(d: Disk, n: nat, m: nat, e: Disk)
    requires Sound(d, n, m) && e == d.(temps := e.temps, headTemps := e.headTemps)
    ensures Sound(e, n, m)
  {
    SameChain(d, e, n);
    forall h | h in e.heads ensures HeadOk(e, m, h) { assert HeadOk(d, m, h); }
  }

  /** A power cut leaves a sound disk with all or all but the last of the visible records. */
  lemma {:induction false} CutSound(d: Disk, n: nat, m: nat, keep: set<nat>, survivor: HeadFile, temps: set<nat>,
                                    headTemps: set<nat>) returns (k: nat)
    requires Sound(d, n, m)
    ensures m <= k <= n && Sound(AfterCut(d, keep, survivor, temps, headTemps), k, k)
  {
    var e := AfterCut(d, keep, survivor, temps, headTemps);
    k := if n in d.kept + keep then n else m;
    forall i ensures i in e.records.Keys <==> 0 < i <= k {
      assert i in d.records.Keys <==> 0 < i <= n;
      assert i in d.kept <==> 0 < i <= m;
    }
    forall i | 0 < i <= k ensures i in d.records && i in e.records && e.records[i] == d.records[i] {
      assert i in e.records.Keys;
    }
    if k > 0 { LinkAt(d, n, k); }
    SameChain(d, e, k);
    assert HeadOk(d, m, e.head);
    assert e.head.sequence > 0 ==> e.head.sequence in e.records.Keys;
  }

  // ---------- replay ----------

  /** The owner's head is a point of this chain, if the chain reaches that far. */
  ghost predicate Observed(d: Disk, n: nat, head: Head)
  {
    head.sequence <= n ==>
      (head.sequence == 0 || head.sequence in d.records) && (head.sequence > 0 ==> head == HeadAt(d, head.sequence))
  }

  /** Replays the chain from the anchor; a sound disk always replays to its last record. */
  method Replay(d: Disk, head: Head) returns (r: Result<Head>)
    ensures r.Ok? ==> (r.value.sequence == 0 || r.value.sequence in d.records) && r.value == HeadAt(d, r.value.sequence)
    ensures r.Ok? ==> Chained(d, r.value.sequence) && r.value.sequence <= MAX_RECORDS
    ensures r.Ok? ==> Observed(d, r.value.sequence, head)
    ensures forall n: nat {:trigger Chained(d, n)} ::
              n <= MAX_RECORDS && Upto(d.records.Keys, n) && Chained(d, n) && Observed(d, n, head) ==>
              (n == 0 || n in d.records) && r == Ok(HeadAt(d, n))
  {
    var at := Head(0, d.anchor, OfAnchor(d.anchor));
    while true
      invariant at.sequence <= MAX_RECORDS && (at.sequence == 0 || at.sequence in d.records)
      invariant at == HeadAt(d, at.sequence)
      invariant Chained(d, at.sequence) && Observed(d, at.sequence, head)
      decreases MAX_RECORDS - at.sequence
    {
      var next := at.sequence + 1;
      if next > MAX_RECORDS || next !in d.records { break; }
      var record := d.records[next];
      if record.sequence != next || record.previous != at.digest || record.source != at.checkpoint
         || !Succeeds(record.target, record.source) {
        forall n | Chained(d, n) && next <= n ensures false { LinkAt(d, n, next); }
        return Err(InvalidState);
      }
      at := Head(next, record.target, OfRecord(record));
      if at.sequence == head.sequence && at != head { return Err(InvalidState); }
    }
    r := Ok(at);
  }

  predicate InventoryOk(d: Disk, n: nat)
  {
    (forall i :: i in d.records ==> 0 < i <= n) && |d.records| == n
  }

  lemma {:induction false} UptoSize(s: set<nat>, n: nat)
    requires Upto(s, n)
    ensures |s| == n
  {
    if n == 0 {
      assert s == {};
    } else {
      UptoSize(s - {n}, n - 1);
    }
  }

  datatype Expected = Anything | Exactly(source: Checkpoint, target: Checkpoint)

  predicate Meets(c: Checkpoint, expected: Expected)
  {
    expected.Exactly? ==> c == expected.source || c == expected.target
  }

  /** Which end of a step a ledger stands at. */
  datatype Convergence = AtSource | AtTarget

  /** The owner of a ledger directory; `fuse` counts the disk steps before the next failure. */
  class Owner {
    var disk: Disk
    var fuse: nat
    var head: Head
    var poisoned: bool
    ghost var n: nat
    ghost var m: nat

    ghost predicate Valid()
      reads this
    {
      Sound(disk, n, m) && head.sequence <= n && (head.sequence == 0 || head.sequence in disk.records)
      && head == HeadAt(disk, head.sequence)
    }

    /** A freshly initialised directory. */
    constructor (anchor: Checkpoint, fuse: nat)
      ensures Valid() && n == 0 && m == 0 && !poisoned && disk.anchor == anchor && this.fuse == fuse
    {
      disk := Disk(anchor, map[], {}, {}, HeadFile(0, OfAnchor(anchor)), {HeadFile(0, OfAnchor(anchor))}, {});
      this.fuse := fuse;
      head := Head(0, anchor, OfAnchor(anchor));
      poisoned := false;
      n, m := 0, 0;
    }

    /** One disk step, unless the fuse has run out. */
    method Tick() returns (ok: bool)
      modifies this`fuse
      ensures ok == (old(fuse) > 0) && fuse == (if ok then old(fuse) - 1 else 0)
    {
      ok := fuse > 0;
      if ok { fuse := fuse - 1; }
    }

    /** Removes abandoned record files and makes every record name durable. */
    method CleanRecords() returns (ok: bool)
      requires Valid()
      modifies this`disk, this`fuse, this`m
      ensures Valid() && m >= old(m) && ok == (old(fuse) >= |old(disk).temps| + 1)
      ensures fuse == if ok then old(fuse) - |old(disk).temps| - 1 else 0
      ensures disk == old(disk).(temps := disk.temps, kept := disk.kept)
      ensures ok ==> m == n && disk.temps == {}
    {
      ghost var before := disk;
      while disk.temps != {}
        invariant Sound(disk, n, m) && disk == before.(temps := disk.temps) && m == old(m)
        invariant |disk.temps| <= |before.temps| && fuse + |before.temps| == old(fuse) + |disk.temps|
        decreases disk.temps
      {
        var x :| x in disk.temps;
        ok := Tick();
        if !ok { return; }
        TempsSound(disk, n, m, disk.(temps := disk.temps - {x}));
        disk := disk.(temps := disk.temps - {x});
      }
      ok := Tick();
      if ok {
        SyncSound(disk, n, m);
        disk := Synced(disk);
        m := n;
      }
    }

    /** Removes abandoned head files and makes the head file durable. */
    method CleanRoot() returns (ok: bool)
      requires Valid()
      modifies this`disk, this`fuse
      ensures Valid() && ok == (old(fuse) >= |old(disk).headTemps| + 1)
      ensures fuse == if ok then old(fuse) - |old(disk).headTemps| - 1 else 0
      ensures disk == old(disk).(headTemps := disk.headTemps, heads := disk.heads)
      ensures ok ==> disk.heads == {disk.head} && disk.headTemps == {}
    {
      ghost var before := disk;
      while disk.headTemps != {}
        invariant Sound(disk, n, m) && disk == before.(headTemps := disk.headTemps)
        invariant |disk.headTemps| <= |before.headTemps| && fuse + |before.headTemps| == old(fuse) + |disk.headTemps|
        decreases disk.headTemps
      {
        var x :| x in disk.headTemps;
        ok := Tick();
        if !ok { return; }
        TempsSound(disk, n, m, disk.(headTemps := disk.headTemps - {x}));
        disk := disk.(headTemps := disk.headTemps - {x});
      }
      ok := SyncRoot();
    }

    method SyncRoot() returns (ok: bool)
      requires Valid()
      modifies this`disk, this`fuse
      ensures Valid() && ok == (old(fuse) > 0) && fuse == (if ok then old(fuse) - 1 else 0)
      ensures disk == if ok then RootSynced(old(disk)) else old(disk)
    {
      ok := Tick();
      if ok {
        RootSyncSound(disk, n, m);
        disk := RootSynced(disk);
      }
    }

    /** Replaces a stale temporary head and writes the new one aside. */
    method WriteHeadTemp(sequence: nat) returns (ok: bool)
      requires Valid()
      modifies this`disk, this`fuse
      ensures Valid() && disk == old(disk).(headTemps := disk.headTemps)
      ensures ok == (old(fuse) >= if sequence in old(disk).headTemps then 2 else 1)
      ensures fuse == if ok then old(fuse) - (if sequence in old(disk).headTemps then 2 else 1) else 0
      ensures ok ==> disk.headTemps == old(disk).headTemps + {sequence}
    {
      if sequence in disk.headTemps {
        ok := Tick();
        if !ok { return; }
        TempsSound(disk, n, m, disk.(headTemps := disk.headTemps - {sequence}));
        disk := disk.(headTemps := disk.headTemps - {sequence});
      }
      ok := Tick();
      if !ok { return; }
      TempsSound(disk, n, m, disk.(headTemps := disk.headTemps + {sequence}));
      disk := disk.(headTemps := disk.headTemps + {sequence});
    }

    /** Writes the head aside, renames it into place and syncs the root directory. */
    method PublishHead(h: HeadFile) returns (ok: bool)
      requires Valid() && HeadOk(disk, m, h)
      modifies this`disk, this`fuse
      ensures Valid()
      ensures disk == old(disk).(head := disk.head, heads := disk.heads, headTemps := disk.headTemps)
      ensures ok == (old(fuse) >= if h.sequence in old(disk).headTemps then 4 else 3)
      ensures fuse == if ok then old(fuse) - (if h.sequence in old(disk).headTemps then 4 else 3) else 0
      ensures ok ==> disk.head == h && disk.heads == {h} && disk.headTemps == old(disk).headTemps - {h.sequence}
    {
      ok := WriteHeadTemp(h.sequence);
      if !ok { return; }
      ok := Tick();
      if !ok { return; }
      PublishSound(disk, n, m, h);
      disk := Published(disk, h);
      ok := SyncRoot();
    }

    /** Full replay and every check come first; only then is anything cleaned or repaired. */
    method RecoverInner(expected: Expected) returns (r: Result<bool>)
      requires Valid()
      modifies this`disk, this`fuse, this`head, this`m
      ensures Valid() && disk.anchor == old(disk).anchor && disk.records == old(disk).records && m >= old(m)
      ensures r.Ok? ==>
                m == n && head == HeadAt(disk, n) && disk.head == HeadFile(n, TipDigest(disk, n))
                && disk.heads == {disk.head}
      ensures r.Ok? ==> Clean(disk, n) && Meets(head.checkpoint, expected)
      ensures r.Err? ==> head == old(head)
      ensures n == 0 || n in disk.records
      ensures r.Ok? <==> Meets(Tip(disk, n), expected) && old(fuse) >= RepairCost(old(disk), n)
      ensures r.Ok? ==> fuse == old(fuse) - RepairCost(old(disk), n)
      ensures r.Err? ==>
                || Interrupted(r, Io, fuse)
                || (r.code == ThirdState && !Meets(Tip(disk, n), expected) && disk == old(disk))
    {
      TipKnown(disk, n, m);
      if disk.head.sequence > MAX_RECORDS { return Err(InvalidState); }
      var tip := Replay(disk, head);
      assert tip == Ok(HeadAt(disk, n));
      UptoSize(disk.records.Keys, n);
      if !InventoryOk(disk, tip.value.sequence) { return Err(InvalidState); }
      if disk.head.sequence > tip.value.sequence { return Err(InvalidState); }
      if TipDigest(disk, disk.head.sequence) != disk.head.digest { return Err(InvalidState); }
      if tip.value.sequence < head.sequence || (tip.value.sequence == head.sequence && tip.value != head) {
        return Err(InvalidState);
      }
      if !Meets(tip.value.checkpoint, expected) { return Err(ThirdState); }
      r := Repair(tip.value);
      if r.Ok? { head := tip.value; }
    }

    /** The head is published only after the records directory has been synced. */
    method Repair(tip: Head) returns (r: Result<bool>)
      requires Valid() && (n == 0 || n in disk.records) && tip == HeadAt(disk, n)
      modifies this`disk, this`fuse, this`m
      ensures Valid() && disk.anchor == old(disk).anchor && disk.records == old(disk).records && m >= old(m)
      ensures r.Ok? ==> m == n && disk.head == HeadFile(n, tip.digest) && disk.heads == {disk.head} && Clean(disk, n)
      ensures r.Ok? <==> old(fuse) >= RepairCost(old(disk), n)
      ensures r.Ok? ==> fuse == old(fuse) - RepairCost(old(disk), n)
      ensures r.Err? ==> Interrupted(r, Io, fuse)
    {
      var ok := CleanRecords();
      if !ok { return Err(Io); }
      ok := CleanRoot();
      if !ok { return Err(Io); }
      assert HeadOk(disk, m, disk.head);
      if disk.head.sequence < tip.sequence {
        ok := PublishHead(HeadFile(tip.sequence, tip.digest));
        if !ok { return Err(Io); }
        ok := SyncRoot();
        if !ok { return Err(Io); }
      }
      r := Ok(true);
    }

    method Recover(expected: Expected) returns (r: Result<bool>)
      requires Valid()
      modifies this`disk, this`fuse, this`head, this`m, this`poisoned
      ensures Valid() && disk.anchor == old(disk).anchor && disk.records == old(disk).records && m >= old(m)
      ensures poisoned == r.Err?
      ensures r.Ok? ==>
                m == n && head == HeadAt(disk, n) && disk.heads == {disk.head} && Clean(disk, n)
                && Meets(head.checkpoint, expected)
      ensures n == 0 || n in disk.records
      ensures r.Ok? <==>
                !old(poisoned) && Meets(Tip(disk, n), expected) && old(fuse) >= RepairCost(old(disk), n)
      ensures r.Ok? ==> fuse == old(fuse) - RepairCost(old(disk), n)
      ensures r.Err? ==> || Interrupted(r, Io, fuse) || (old(poisoned) && r.code == InvalidState)
                         || (r.code == ThirdState && !Meets(Tip(disk, n), expected))
    {
      TipKnown(disk, n, m);
      if poisoned { return Err(InvalidState); }
      poisoned := true;
      r := RecoverInner(expected);
      if r.Ok? { poisoned := false; }
    }

    /** One record is written aside, renamed and synced. */
    method WriteRecord(record: Record) returns (ok: bool)
      requires Valid() && m == n < MAX_RECORDS && (n == 0 || n in disk.records)
      requires record == Record(n + 1, TipDigest(disk, n), Tip(disk, n), record.target)
      requires Succeeds(record.target, record.source)
      modifies this`disk, this`fuse, this`n, this`m
      ensures Valid() && m >= old(m) && ok == (old(fuse) >= 3) && fuse == (if ok then old(fuse) - 3 else 0)
      ensures disk.anchor == old(disk).anchor && disk.head == old(disk).head && disk.headTemps == old(disk).headTemps
      ensures || (n == old(n) && disk.records == old(disk).records)
              || (n == old(n) + 1 && disk.records == old(disk).records[n := record])
      ensures ok ==> n == old(n) + 1 && m == n && disk.temps == old(disk).temps - {n}
    {
      ok := Tick();
      if !ok { return; }
      TempsSound(disk, n, m, disk.(temps := disk.temps + {n + 1}));
      disk := disk.(temps := disk.temps + {record.sequence});
      ok := Tick();
      if !ok { return; }
      RenameSound(disk, n, record);
      disk := Renamed(disk, record.sequence, record);
      n := n + 1;
      ok := Tick();
      if !ok { return; }
      SyncSound(disk, n, m);
      disk := Synced(disk);
      m := n;
    }

    /** Appends the exact successor, or finds that it is already there. */
    method Append(source: Checkpoint, target: Checkpoint) returns (r: Result<Head>)
      requires Valid()
      modifies this
      ensures Valid() && disk.anchor == old(disk).anchor && m >= old(m)
      ensures (n == old(n) && disk.records == old(disk).records) || AddedOne(old(disk), old(n), disk, n, source, target)
      ensures r.Ok? ==>
                Succeeds(target, source) && !poisoned && r.value == head == HeadAt(disk, n) && m == n
                && head.checkpoint == target
      ensures r.Err? && Ready(old(disk), old(n), source, target) && !old(poisoned) ==> Interrupted(r, Io, fuse)
      ensures r.Ok? <==>
                !old(poisoned) && Ready(old(disk), old(n), source, target)
                && old(fuse) >= AppendCost(old(disk), old(n), target)
      ensures r.Ok? && Tip(old(disk), old(n)) == source ==> AddedOne(old(disk), old(n), disk, n, source, target)
    {
      TipKnown(disk, n, m);
      if !Succeeds(target, source) { return Err(TargetNotSuccessor); }
      var recovered := Recover(Exactly(source, target));
      if recovered.Err? { return Err(recovered.code); }
      if head.checkpoint == target { return Ok(head); }
      if head.checkpoint != source { return Err(SourceMismatch); }
      if head.sequence + 1 > MAX_RECORDS { return Err(InvalidState); }
      if head.sequence + 1 in disk.records { return Err(InvalidState); }
      r := Extend(Record(head.sequence + 1, head.digest, source, target));
    }

    /** Writes and publishes one record, then reads the whole ledger back. */
    method Extend(record: Record) returns (r: Result<Head>)
      requires Valid() && !poisoned && m == n < MAX_RECORDS && head == HeadAt(disk, n) && Clean(disk, n)
      requires record == Record(n + 1, head.digest, head.checkpoint, record.target)
      requires Succeeds(record.target, record.source)
      modifies this
      ensures Valid() && disk.anchor == old(disk).anchor && m >= old(m)
      ensures || (n == old(n) && disk.records == old(disk).records)
              || (n == old(n) + 1 && disk.records == old(disk).records[n := record])
      ensures r.Ok? ==> n == old(n) + 1 && !poisoned && r.value == head == HeadAt(disk, n) && m == n
      ensures r.Ok? <==> old(fuse) >= EXTEND_COST
      ensures r.Err? ==> Interrupted(r, Io, fuse)
    {
      poisoned := true;
      if record.sequence in disk.temps { return Err(Io); }
      var ok := WriteRecord(record);
      if !ok { return Err(Io); }
      ok := PublishHead(HeadFile(record.sequence, OfRecord(record)));
      if !ok { return Err(Io); }
      ok := SyncRoot();
      if !ok { return Err(Io); }
      var recovered := RecoverInner(Exactly(record.source, record.target));
      if recovered.Err? { return Err(recovered.code); }
      if head != Head(record.sequence, record.target, OfRecord(record)) { return Err(ThirdState); }
      poisoned := false;
      r := Ok(head);
    }

    /** Answers which end of the step the ledger stands at. */
    method Resolve(source: Checkpoint, target: Checkpoint) returns (r: Result<Convergence>)
      requires Valid()
      modifies this`disk, this`fuse, this`head, this`m, this`poisoned
      ensures Valid() && disk.anchor == old(disk).anchor && disk.records == old(disk).records && m >= old(m)
      ensures r.Ok? ==> (n == 0 || n in disk.records) && m == n
      ensures r.Ok? ==> Tip(disk, n) == (if r.value == AtSource then source else target)
      ensures r.Err? && Ready(disk, n, source, target) && !old(poisoned) ==> Interrupted(r, Io, fuse)
      ensures n == 0 || n in disk.records
      ensures r.Ok? <==> !old(poisoned) && Succeeds(target, source) && Meets(Tip(disk, n), Exactly(source, target))
                         && old(fuse) >= RepairCost(old(disk), n)
    {
      TipKnown(disk, n, m);
      if !Succeeds(target, source) { return Err(TargetNotSuccessor); }
      var recovered := Recover(Exactly(source, target));
      if recovered.Err? { return Err(recovered.code); }
      if head.checkpoint == source { return Ok(AtSource); }
      if head.checkpoint == target { return Ok(AtTarget); }
      r := Err(ThirdState);
    }

    /** Power is lost: the owner is gone and unsynced names may be lost with it. */
    method PowerCut(keep: set<nat>, survivor: HeadFile, temps: set<nat>, headTemps: set<nat>)
      requires Valid()
      modifies this
      ensures Valid() && poisoned && fuse == 0 && old(m) <= n == m <= old(n)
      ensures disk == AfterCut(old(disk), keep, survivor, temps, headTemps)
    {
      ghost var k := CutSound(disk, n, m, keep, survivor, temps, headTemps);
      disk := AfterCut(disk, keep, survivor, temps, headTemps);
      n, m := k, k;
      head := Head(0, disk.anchor, OfAnchor(disk.anchor));
      poisoned, fuse := true, 0;
    }

    /** A new owner opens the directory for one step and recovers it. */
    method OpenExpected(source: Checkpoint, target: Checkpoint, steps: nat) returns (r: Result<bool>)
      requires Valid()
      modifies this
      ensures Valid() && n == old(n) && disk.anchor == old(disk).anchor && disk.records == old(disk).records
      ensures m >= old(m)
      ensures r.Ok? ==>
                !poisoned && m == n && head == HeadAt(disk, n)
                && (head.checkpoint == source || head.checkpoint == target)
      ensures r.Err? && Ready(disk, n, source, target) ==> Interrupted(r, Io, fuse)
      ensures n == 0 || n in disk.records
      ensures r.Ok? <==> Succeeds(target, source) && Meets(Tip(disk, n), Exactly(source, target))
                         && steps >= RepairCost(old(disk), n)
      ensures r.Ok? ==> Clean(disk, n) && fuse == steps - RepairCost(old(disk), n)
    {
      TipKnown(disk, n, m);
      head := Head(0, disk.anchor, OfAnchor(disk.anchor));
      poisoned, fuse := false, steps;
      if !Succeeds(target, source) { return Err(TargetNotSuccessor); }
      r := Recover(Exactly(source, target));
    }

    /** The ledger stands at the start of the step or at its end, and never further back than its start. */
    ghost predicate Within(source: Checkpoint, target: Checkpoint, base: nat)
      reads this
    {
      && base < MAX_RECORDS && base <= m && (base == 0 || base in disk.records) && Tip(disk, base) == source
      && (n == base || (n == base + 1 && base + 1 in disk.records && Tip(disk, base + 1) == target))
    }
  }

  /** Nothing is left over from an interrupted step, and the head file names the last record. */
  predicate Clean(d: Disk, n: nat) { d.temps == {} && d.headTemps == {} && d.head.sequence == n }

  lemma {:induction false} TipKnown(d: Disk, n: nat, m: nat)
    requires Sound(d, n, m)
    ensures n == 0 || n in d.records
    ensures d.head.sequence <= n && (d.head.sequence == 0 || d.head.sequence in d.records)
    ensures d.head.digest == TipDigest(d, d.head.sequence)
  {
    assert n > 0 ==> n in d.records.Keys;
    assert HeadOk(d, m, d.head);
  }

  /** Exactly one record was added, for this step. */
  ghost predicate AddedOne(d: Disk, n: nat, e: Disk, k: nat, source: Checkpoint, target: Checkpoint)
  {
    && k == n + 1 && k in e.records && e.records.Keys == d.records.Keys + {k}
    && (forall i :: i in d.records ==> i in e.records && e.records[i] == d.records[i])
    && (n == 0 || n in d.records) && Tip(d, n) == source && Tip(e, k) == target
  }

  /** The disk is where the step starts or where it ends, with room for one more record. */
  ghost predicate Ready(d: Disk, n: nat, source: Checkpoint, target: Checkpoint)
  {
    && Succeeds(target, source) && (n == 0 || n in d.records)
    && (Tip(d, n) == target || (Tip(d, n) == source && n < MAX_RECORDS))
  }

  /** Cutting the power keeps every record that is still listed. */
  lemma {:induction false} CutTips(d: Disk, n: nat, m: nat, e: Disk, k: nat, i: nat)
    requires Sound(d, n, m) && Sound(e, k, k) && e.anchor == d.anchor && i <= k <= n
    requires forall j :: j in e.records ==> j in d.records && e.records[j] == d.records[j]
    ensures (i == 0 || (i in d.records && i in e.records)) && Tip(e, i) == Tip(d, i)
  {
    assert i > 0 ==> i in e.records.Keys;
  }

  // ---------- any number of attempts at one step ----------

  datatype Op = DoAppend | DoResolve | Reopen(steps: nat)
    | Cut(keep: set<nat>, survivor: HeadFile, temps: set<nat>, headTemps: set<nat>)

  /** Everything a later attempt depends on: the disk, its visible and durable records, and the owner. */
  datatype Moment = Moment(disk: Disk, n: nat, m: nat, fuse: nat, poisoned: bool)

  /** The attempt is an append that the owner acknowledges. */
  ghost predicate Acknowledges(s: Moment, source: Checkpoint, target: Checkpoint, op: Op)
  {
    op.DoAppend? && !s.poisoned && Ready(s.disk, s.n, source, target) && s.fuse >= AppendCost(s.disk, s.n, target)
  }

  ghost function Now(o: Owner): Moment
    reads o
  {
    Moment(o.disk, o.n, o.m, o.fuse, o.poisoned)
  }

  /** One attempt within a step; `done` reports an acknowledged append. */
  method Attempt(o: Owner, source: Checkpoint, target: Checkpoint, op: Op, ghost base: nat) returns (done: bool)
    requires o.Valid() && Succeeds(target, source) && o.Within(source, target, base)
    modifies o
    ensures o.Valid() && o.Within(source, target, base)
    ensures done <==> Acknowledges(old(Now(o)), source, target, op)
    ensures old(o.m) == base + 1 || done ==> o.m == base + 1
  {
    done := false;
    match op
    case DoAppend => {
      var r := o.Append(source, target);
      done := r.Ok?;
    }
    case DoResolve => { var r := o.Resolve(source, target); }
    case Reopen(steps) => { var r := o.OpenExpected(source, target, steps); }
    case Cut(keep, survivor, temps, headTemps) => {
      ghost var d, n, m := o.disk, o.n, o.m;
      o.PowerCut(keep, survivor, temps, headTemps);
      CutTips(d, n, m, o.disk, o.n, base);
      if o.n == base + 1 { CutTips(d, n, m, o.disk, o.n, base + 1); }
    }
  }

  /** From the first acknowledgement on, the step's record is durable. */
  ghost predicate Lasting(trace: seq<Moment>, acks: seq<bool>, base: nat)
  {
    |trace| == |acks| + 1 && forall i, j :: 0 <= i < j < |trace| && acks[i] ==> trace[j].m == base + 1
  }

  lemma {:induction false} LastingNext(trace: seq<Moment>, acks: seq<bool>, base: nat, s: Moment, done: bool)
    requires Lasting(trace, acks, base) && (trace[|acks|].m == base + 1 || done ==> s.m == base + 1)
    ensures Lasting(trace + [s], acks + [done], base)
  {
    var longer, more := trace + [s], acks + [done];
    forall i, j | 0 <= i < j < |longer| && more[i] ensures longer[j].m == base + 1 {
      if i < |acks| { assert acks[i]; }
    }
  }

  /**
   Any sequence of appends, resolutions, restarts and power cuts for one step, with one answer for
   each.  An append is acknowledged exactly when the owner serves, the ledger is ready and the disk
   lasts.  The ledger always stands at the source or at the target, all appends together add at most
   one record, and from an acknowledgement on that record is durable for good.
   */
  method RunStep(o: Owner, source: Checkpoint, target: Checkpoint, ops: seq<Op>, ghost base: nat)
    returns (acks: seq<bool>, ghost trace: seq<Moment>)
    requires o.Valid() && Succeeds(target, source) && o.Within(source, target, base)
    modifies o
    ensures o.Valid() && o.Within(source, target, base)
    ensures |acks| == |ops| && |trace| == |ops| + 1 && trace[0] == old(Now(o)) && trace[|ops|] == Now(o)
    ensures forall i :: 0 <= i < |ops| ==> (acks[i] <==> Acknowledges(trace[i], source, target, ops[i]))
    ensures Lasting(trace, acks, base)
  {
    acks, trace := [], [Now(o)];
    var i := 0;
    while i < |ops|
      invariant 0 <= i <= |ops| && o.Valid() && o.Within(source, target, base)
      invariant |acks| == i && |trace| == i + 1 && trace[0] == old(Now(o)) && trace[i] == Now(o)
      invariant forall k :: 0 <= k < i ==> (acks[k] <==> Acknowledges(trace[k], source, target, ops[k]))
      invariant Lasting(trace, acks, base)
    {
      var done := Attempt(o, source, target, ops[i], base);
      LastingNext(trace, acks, base, Now(o), done);
      acks, trace, i := acks + [done], trace + [Now(o)], i + 1;
    }
  }

  /**
   The step gets through.  After whatever attempts and failures, one restart and one append on a
   disk that lasts long enough leave exactly one durable record more than the step started from.
   */
  method Converge(o: Owner, source: Checkpoint, target: Checkpoint, ops: seq<Op>, spare: nat, ghost base: nat)
    returns (r: Result<Head>)
    requires o.Valid() && Succeeds(target, source) && o.Within(source, target, base)
    modifies o
    ensures o.Valid() && r.Ok? && r.value == o.head && o.head.checkpoint == target
    ensures o.n == o.m == base + 1 && base + 1 in o.disk.records && Tip(o.disk, base + 1) == target
  {
    var acks, _ := RunStep(o, source, target, ops, base);
    var steps := |o.disk.temps| + |o.disk.headTemps| + 8 + EXTEND_COST + spare;
    var reopened := o.OpenExpected(source, target, steps);
    r := o.Append(source, target);
  }
}
