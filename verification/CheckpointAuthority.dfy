/**
 The checkpoint authority: compare-and-advance over an append-only, hash-chained journal with a
 separate anchor file.  The disk keeps apart what is visible and what a power cut must keep.
 */
module CheckpointAuthority {
  import opened Wrappers
  import opened Checkpoints

  datatype Code = InvalidConfig | CompareFailed | InvalidLog | Unavailable | Io
  type Result<+T> = Try<T, Code>

  datatype LogHash = NoRecord | OfRecord(record: Record)
  datatype Record = Record(sequence: nat, scope: nat, expected: Option<Checkpoint>, target: Checkpoint,
                           previous: LogHash)
  datatype Anchor = Anchor(count: nat, hash: LogHash)

  /**
   The first `synced` records are durable, `tail` says that a torn record follows the log, and
   `anchors` are the versions of the anchor file a power cut may leave behind.
   */
  datatype Disk = Disk(log: seq<Record>, synced: nat, tail: bool, anchor: Option<Anchor>, anchors: set<Option<Anchor>>)

  // ---------- replay ----------

  function MapOf(log: seq<Record>): map<nat, Checkpoint>
  {
    if log == [] then map[] else MapOf(log[..|log| - 1])[log[|log| - 1].scope := log[|log| - 1].target]
  }

  function HashOf(log: seq<Record>): LogHash
  {
    if log == [] then NoRecord else OfRecord(log[|log| - 1])
  }

  function Lookup(m: map<nat, Checkpoint>, scope: nat): Option<Checkpoint>
  {
    if scope in m then Some(m[scope]) else None
  }

  /** A first value of generation zero, or the exact successor of the expected one. */
  predicate ShapeOk(expected: Option<Checkpoint>, target: Checkpoint)
  {
    match expected
    case None => target.generation == 0 && target.predecessor == Zero
    case Some(e) => Succeeds(target, e)
  }

  /** The record may follow this log. */
  predicate Fits(log: seq<Record>, r: Record)
  {
    && r.sequence == |log| + 1 && r.previous == HashOf(log) && ShapeOk(r.expected, r.target)
    && r.target.scope == r.scope && Lookup(MapOf(log), r.scope) == r.expected
  }

  ghost predicate Chained(log: seq<Record>)
  {
    log == [] || (Chained(log[..|log| - 1]) && Fits(log[..|log| - 1], log[|log| - 1]))
  }

  lemma {:induction false} ChainPrefix(log: seq<Record>, n: nat)
    requires Chained(log) && n <= |log|
    ensures Chained(log[..n])
  {
    if n == |log| {
      assert log[..n] == log;
    } else {
      ChainPrefix(log[..|log| - 1], n);
      assert log[..|log| - 1][..n] == log[..n];
    }
  }

  lemma {:induction false} ChainNext(log: seq<Record>, r: Record)
    requires Chained(log) && Fits(log, r)
    ensures Chained(log + [r]) && MapOf(log + [r]) == MapOf(log)[r.scope := r.target]
    ensures HashOf(log + [r]) == OfRecord(r)
  {
    assert (log + [r])[..|log|] == log;
  }

  // ---------- one scope ----------

  /** The accepted targets of one scope, oldest first. */
  function Targets(log: seq<Record>, scope: nat): seq<Checkpoint>
  {
    if log == [] then []
    else Targets(log[..|log| - 1], scope) + if log[|log| - 1].scope == scope then [log[|log| - 1].target] else []
  }

  /** Each scope's accepted targets are one chain of generations 0, 1, 2, … ending in its current value. */
  lemma {:induction false} ScopeChain(log: seq<Record>, scope: nat)
    requires Chained(log)
    ensures var t := Targets(log, scope);
            && Linked(t) && (forall i :: 0 <= i < |t| ==> t[i].generation == i && t[i].scope == scope)
            && (scope in MapOf(log) <==> t != []) && (t != [] ==> MapOf(log)[scope] == t[|t| - 1])
  {
    if log != [] {
      var rest, r := log[..|log| - 1], log[|log| - 1];
      ScopeChain(rest, scope);
      if r.scope == scope {
        var t := Targets(rest, scope);
        assert t != [] ==> Succeeds(r.target, t[|t| - 1]);
      }
    }
  }

  // ---------- the disk ----------

  /** The anchor names a record of the log, unless it is ahead of the log. */
  ghost predicate AnchorFits(log: seq<Record>, a: Option<Anchor>)
  {
    a.Some? && a.value.count <= |log| ==> a.value.hash == HashOf(log[..a.value.count])
  }

  /** No version of the anchor is ahead of the visible log. */
  ghost predicate Level(d: Disk)
  {
    forall a :: a in d.anchors && a.Some? ==> a.value.count <= |d.log|
  }

  /** Only an anchor that is alone on the disk can be ahead of the log. */
  ghost predicate Sound(d: Disk)
  {
    && Chained(d.log) && d.synced <= |d.log| && d.anchor in d.anchors
    && (Level(d) || d.anchors == {d.anchor})
    && forall a :: a in d.anchors ==> AnchorFits(d.log, a)
  }

  /** No version of the anchor is ahead of the durable log. */
  ghost predicate Behind(d: Disk)
  {
    forall a :: a in d.anchors && a.Some? ==> a.value.count <= d.synced
  }

  function Durable(d: Disk): seq<Record>
    requires d.synced <= |d.log|
  {
    d.log[..d.synced]
  }

  function Appended(d: Disk, r: Record): Disk { d.(log := d.log + [r]) }
  function Synced(d: Disk): Disk { d.(synced := |d.log|) }
  function Renamed(d: Disk, a: Anchor): Disk { d.(anchor := Some(a), anchors := d.anchors + {Some(a)}) }
  function DirSynced(d: Disk): Disk { d.(anchors := {d.anchor}) }

  /** After a power cut the durable records are there, perhaps some more, and perhaps a torn one. */
  function AfterCut(d: Disk, keep: nat, torn: bool, survivor: Option<Anchor>): Disk
    requires d.synced <= |d.log|
  {
    var n := if keep < d.synced then d.synced else if keep > |d.log| then |d.log| else keep;
    var a := if survivor in d.anchors then survivor else d.anchor;
    Disk(d.log[..n], n, torn && (n < |d.log| || d.tail), a, {a})
  }

  lemma {:induction false} AppendSound(d: Disk, r: Record)
    requires Sound(d) && Level(d) && Fits(d.log, r)
    ensures Sound(Appended(d, r)) && Level(Appended(d, r)) && (Behind(d) ==> Behind(Appended(d, r)))
  {
    ChainNext(d.log, r);
    forall a | a in d.anchors ensures AnchorFits(d.log + [r], a) {
      assert AnchorFits(d.log, a);
      if a.Some? { assert (d.log + [r])[..a.value.count] == d.log[..a.value.count]; }
    }
  }

  lemma {:induction false} RenameSound(d: Disk, n: nat)
    requires Sound(d) && Level(d) && n == |d.log|
    ensures var e := Renamed(d, Anchor(n, HashOf(d.log)));
            Sound(e) && Level(e) && (Behind(e) <==> Behind(d) && d.synced == |d.log|)
  {
    var a := Anchor(n, HashOf(d.log));
    var e := Renamed(d, a);
    assert d.log[..n] == d.log;
    assert Some(a) in e.anchors;
    if Behind(e) { forall x | x in d.anchors && x.Some? ensures x.value.count <= d.synced { assert x in e.anchors; } }
  }

  /** Cutting the power keeps what is durable; an anchor behind the durable log stays behind. */
  lemma {:induction false} CutSound(d: Disk, keep: nat, torn: bool, survivor: Option<Anchor>)
    requires Sound(d)
    ensures var e := AfterCut(d, keep, torn, survivor);
            Sound(e) && Durable(d) <= Durable(e) && (Behind(d) ==> Behind(e) && Level(e))
  {
    var e := AfterCut(d, keep, torn, survivor);
    ChainPrefix(d.log, |e.log|);
    assert AnchorFits(d.log, e.anchor);
    if e.anchor.Some? && e.anchor.value.count <= |e.log| {
      assert e.log[..e.anchor.value.count] == d.log[..e.anchor.value.count];
    }
  }

  // ---------- operations as disk steps ----------

  /** The states in which the journal will not open. */
  predicate Refused(d: Disk)
  {
    d.tail || (d.anchor.Some? && d.anchor.value.count > |d.log|) || (d.anchor.None? && d.log != [])
  }

  function HeadOf(d: Disk): Anchor { Anchor(|d.log|, HashOf(d.log)) }

  /** The anchor is written aside, renamed and synced, as far as `steps` disk steps go. */
  function Persisted(d: Disk, steps: nat): Disk
  {
    if steps < 2 then d else if steps == 2 then Renamed(d, HeadOf(d)) else DirSynced(Renamed(d, HeadOf(d)))
  }

  /** A journal that opens moves an older or missing anchor up to its head. */
  function Reopened(d: Disk, steps: nat): Disk
  {
    if Refused(d) || d.anchor == Some(HeadOf(d)) then d else Persisted(d, steps)
  }

  /** The disk steps left after opening: only moving the anchor takes any. */
  function FuseAfterOpen(d: Disk, steps: nat): nat
  {
    if Refused(d) || d.anchor == Some(HeadOf(d)) then steps else if steps >= 3 then steps - 3 else 0
  }

  /** A record is written and the journal synced, then its directory. */
  function Wrote(d: Disk, r: Record, steps: nat, torn: bool): Disk
  {
    if steps == 0 then d.(tail := d.tail || torn) else if steps == 1 then Appended(d, r) else Synced(Appended(d, r))
  }

  function AppendedAt(d: Disk, r: Record, steps: nat, torn: bool): Disk
  {
    if steps < 3 then Wrote(d, r, steps, torn) else Persisted(Wrote(d, r, steps, torn), steps - 3)
  }

  lemma {:induction false} PersistSound(d: Disk, steps: nat)
    requires Sound(d) && Level(d)
    ensures var e := Persisted(d, steps);
            && Sound(e) && Level(e) && e == d.(anchor := e.anchor, anchors := e.anchors)
            && (Behind(d) ==> (Behind(e) <==> steps < 2 || d.synced == |d.log|))
  {
    RenameSound(d, |d.log|);
    var e := Renamed(d, HeadOf(d));
    assert AnchorFits(e.log, e.anchor) && Some(HeadOf(d)) in e.anchors;
    if steps > 2 { assert Some(HeadOf(d)) in DirSynced(e).anchors; }
  }

  lemma {:induction false} WroteSound(d: Disk, r: Record, steps: nat, torn: bool)
    requires Sound(d) && Level(d) && Fits(d.log, r)
    ensures var e := Wrote(d, r, steps, torn); Sound(e) && Level(e) && Kept(d, e)
    ensures steps >= 2 ==> Wrote(d, r, steps, torn).synced == |d.log| + 1
  {
    if steps > 0 {
      AppendSound(d, r);
      if steps > 1 { SyncedSound(Appended(d, r)); }
    }
  }

  lemma {:induction false} SyncedSound(d: Disk)
    requires Sound(d) && Level(d)
    ensures Sound(Synced(d)) && Level(Synced(d)) && Behind(Synced(d)) && Durable(d) <= Durable(Synced(d))
  {
  }

  lemma {:induction false} AppendedSound(d: Disk, r: Record, steps: nat, torn: bool)
    requires Sound(d) && Level(d) && Fits(d.log, r)
    ensures var e := AppendedAt(d, r, steps, torn); Sound(e) && Level(e) && Kept(d, e)
  {
    WroteSound(d, r, steps, torn);
    var e := Wrote(d, r, steps, torn);
    if steps >= 3 {
      PersistSound(e, steps - 3);
      AnchorKept(d, e, Persisted(e, steps - 3));
    }
  }

  /** An append that got through all its steps: the record is durable and the one anchor names it. */
  lemma {:induction false} AppendedWhole(d: Disk, r: Record, steps: nat, torn: bool)
    requires steps >= 6 && d.synced <= |d.log|
    ensures var e := AppendedAt(d, r, steps, torn);
            && e.log == d.log + [r] && Durable(e) == e.log && e.tail == d.tail
            && e.anchors == {Some(HeadOf(e))} && Behind(e)
  {
  }

  /** The reopened journal would move its anchor while a record is visible but not durable. */
  predicate Overtakes(d: Disk, steps: nat)
  {
    d.synced < |d.log| && steps >= 2 && !Refused(d)
  }

  lemma {:induction false} ReopenLevel(d: Disk)
    requires Sound(d) && !Refused(d)
    ensures Level(d)
  {
  }

  /**
   An anchor behind the durable journal stays behind on reopening exactly when nothing visible is
   unsynced (or nothing moves).
   */
  lemma {:induction false} ReopenSound(d: Disk, steps: nat)
    requires Sound(d)
    ensures var e := Reopened(d, steps);
            && Sound(e) && e == d.(anchor := e.anchor, anchors := e.anchors)
            && (Behind(d) ==> (Behind(e) <==> !Overtakes(d, steps)))
  {
    if !Refused(d) {
      ReopenLevel(d);
      PersistSound(d, steps);
    }
  }

  // ---------- the anchor can overtake the journal ----------

  const EMPTY := Disk([], 0, false, None, {None})

  /** The first opening writes an anchor for no record; an advance that fails at the sync leaves its record visible. */
  lemma {:induction false} VisibleRecord(c: Checkpoint)
    requires c.generation == 0 && c.predecessor == Zero
    ensures var first := Some(Anchor(0, NoRecord));
            var r := Record(1, c.scope, None, c, NoRecord);
            && Reopened(EMPTY, 4) == Disk([], 0, false, first, {first}) && Due([], None, c)
            && NextRecord([], None, c) == r && Fits([], r)
            && AppendedAt(Reopened(EMPTY, 4), r, 1, false) == Disk([r], 0, false, first, {first})
  {
  }

  /** Reopening moves the anchor of such a disk to the unsynced record, which a power cut then takes away. */
  lemma {:induction false} Overtaken(r: Record, a: Anchor)
    requires a.count == 0
    ensures var d := Disk([r], 0, false, Some(a), {Some(a)});
            var e := Reopened(d, 3);
            var cut := AfterCut(e, 0, false, e.anchor);
            && Behind(d) && Overtakes(d, 3) && !Behind(e) && e.anchor == Some(Anchor(1, OfRecord(r)))
            && e.synced == 0 && e.log == [r] && cut.log == [] && cut.anchor == e.anchor && Refused(cut)
  {
    var e := Reopened(Disk([r], 0, false, Some(a), {Some(a)}), 3);
    assert Some(Anchor(1, OfRecord(r))) in e.anchors;
    assert e.log[..0] == [];
  }

  /**
   From an empty directory: the journal is opened, an advance fails when its record is to be
   synced, and the journal is reopened without a power cut.  Its anchor is then ahead of the
   durable log, and a power cut leaves a journal that will not open again.
   */
  lemma {:induction false} AnchorOvertakes(c: Checkpoint)
    requires c.generation == 0 && c.predecessor == Zero
    ensures var d1 := Reopened(EMPTY, 4);
            var r := NextRecord(d1.log, None, c);
            var d2 := AppendedAt(d1, r, 1, false);
            var d3 := Reopened(d2, 3);
            && Due(d1.log, None, c) && Sound(d3) && Behind(d2) && Overtakes(d2, 3) && !Behind(d3)
            && d3.synced <= |d3.log|
            && var cut := AfterCut(d3, 0, false, d3.anchor);
               cut.log == [] && cut.anchor == Some(Anchor(1, OfRecord(r))) && Refused(cut)
  {
    VisibleRecord(c);
    var r := Record(1, c.scope, None, c, NoRecord);
    ReopenSound(EMPTY, 4);
    AppendedSound(Reopened(EMPTY, 4), r, 1, false);
    ReopenSound(AppendedAt(Reopened(EMPTY, 4), r, 1, false), 3);
    Overtaken(r, Anchor(0, NoRecord));
  }

  // ---------- the authority ----------

  /** Replays the journal; it succeeds exactly on a chained log and then holds its map and hash. */
  method Replay(log: seq<Record>) returns (r: Result<(map<nat, Checkpoint>, LogHash)>)
    ensures r.Ok? <==> Chained(log)
    ensures r.Ok? ==> r.value == (MapOf(log), HashOf(log))
    ensures r.Err? ==> r.code == InvalidLog
  {
    var current: map<nat, Checkpoint>, hash, i := map[], NoRecord, 0;
    while i < |log|
      invariant 0 <= i <= |log| && Chained(log[..i]) && current == MapOf(log[..i]) && hash == HashOf(log[..i])
    {
      var record := log[i];
      assert log[..i + 1][..i] == log[..i];
      if record.sequence != i + 1 || record.previous != hash || !ShapeOk(record.expected, record.target)
         || record.target.scope != record.scope || Lookup(current, record.scope) != record.expected {
        if Chained(log) { ChainPrefix(log, i + 1); }
        return Err(InvalidLog);
      }
      current, hash, i := current[record.scope := record.target], OfRecord(record), i + 1;
    }
    assert log[..i] == log;
    r := Ok((current, hash));
  }

  /** The map, the hash and the count are those of the journal. */
  ghost predicate Served(d: Disk, current: map<nat, Checkpoint>, hash: LogHash, count: nat)
  {
    Level(d) && !d.tail && current == MapOf(d.log) && hash == HashOf(d.log) && count == |d.log|
  }

  lemma {:induction false} ServedNext(d: Disk, current: map<nat, Checkpoint>, r: Record, steps: nat, torn: bool)
    requires Sound(d) && Served(d, current, HashOf(d.log), |d.log|) && Fits(d.log, r) && steps >= 6
    ensures Served(AppendedAt(d, r, steps, torn), current[r.scope := r.target], OfRecord(r), r.sequence)
  {
    AppendedSound(d, r, steps, torn);
    AppendedWhole(d, r, steps, torn);
    ChainNext(d.log, r);
  }

  /**
   `fuse` counts the disk steps before the next failure, `torn` says whether a failed write leaves a
   partial record.
   */
  class Authority {
    var disk: Disk
    var fuse: nat
    var torn: bool
    var current: map<nat, Checkpoint>
    var hash: LogHash
    var count: nat
    var poisoned: bool

    /** While the authority serves, its map is the replay of the journal. */
    ghost predicate Valid()
      reads this
    {
      Sound(disk) && (!poisoned ==> Served(disk, current, hash, count))
    }

    /** An empty directory, not opened yet. */
    constructor (fuse: nat, torn: bool)
      ensures Valid() && poisoned && disk == EMPTY && this.fuse == fuse && this.torn == torn
    {
      disk := Disk([], 0, false, None, {None});
      current, hash, count, poisoned := map[], NoRecord, 0, true;
      this.fuse, this.torn := fuse, torn;
    }

    method Tick() returns (ok: bool)
      modifies this`fuse
      ensures ok == (old(fuse) > 0) && fuse == (if ok then old(fuse) - 1 else 0)
    {
      ok := fuse > 0;
      if ok { fuse := fuse - 1; }
    }

    /** Writes the anchor aside, renames it into place and syncs the directory. */
    method PersistAnchor(n: nat, h: LogHash) returns (ok: bool)
      requires n == |disk.log| && h == HashOf(disk.log)
      modifies this`disk, this`fuse
      ensures disk == Persisted(old(disk), old(fuse)) && ok == (old(fuse) >= 3)
      ensures fuse == if ok then old(fuse) - 3 else 0
    {
      ok := Tick();
      if !ok { return; }
      ok := Tick();
      if !ok { return; }
      disk := Renamed(disk, Anchor(n, h));
      ok := Tick();
      if !ok { return; }
      disk := DirSynced(disk);
    }

    /**
     Reads the journal back and reconciles the anchor.  It fails closed on a torn tail, on an anchor
     ahead of the journal and on a journal without an anchor.
     */
    method Open(steps: nat) returns (r: Result<bool>)
      requires Valid()
      modifies this
      ensures Valid() && poisoned == r.Err? && torn == old(torn)
      ensures disk == Reopened(old(disk), steps) && disk == old(disk).(anchor := disk.anchor, anchors := disk.anchors)
      ensures r.Ok? <==> !Refused(old(disk)) && (old(disk).anchor == Some(HeadOf(old(disk))) || steps >= 3)
      ensures r.Ok? ==> disk.anchor == Some(HeadOf(disk))
      ensures fuse == FuseAfterOpen(old(disk), steps)
      ensures r.Err? ==> Interrupted(r, Io, fuse) || (disk == old(disk) && Refused(disk))
      ensures Behind(old(disk)) ==> (Behind(disk) <==> !Overtakes(old(disk), steps))
    {
      ReopenSound(disk, steps);
      fuse, poisoned := steps, true;
      var readable := ReadBack();
      if !readable { return Err(InvalidLog); }
      r := Reconcile();
      poisoned := r.Err?;
    }

    /** Replays the journal and compares the anchor with it. */
    method ReadBack() returns (readable: bool)
      requires Sound(disk)
      modifies this`current, this`hash, this`count
      ensures readable == !Refused(disk)
      ensures readable ==> current == MapOf(disk.log) && hash == HashOf(disk.log) && count == |disk.log|
    {
      if disk.tail { return false; }
      var replayed := Replay(disk.log);
      if replayed.Err? { return false; }
      current, hash, count := replayed.value.0, replayed.value.1, |disk.log|;
      assert AnchorFits(disk.log, disk.anchor) && disk.log[..count] == disk.log;
      readable := match disk.anchor
        case Some(a) => !(a.count > count || (a.count == count && a.hash != hash))
        case None => count == 0;
    }

    /** Moves the anchor up to the journal, or leaves an exact one as it is. */
    method Reconcile() returns (r: Result<bool>)
      requires Sound(disk) && !Refused(disk) && count == |disk.log| && hash == HashOf(disk.log)
      modifies this`disk, this`fuse
      ensures disk == Reopened(old(disk), old(fuse)) && Sound(disk) && Level(disk)
      ensures r.Ok? <==> old(disk).anchor == Some(HeadOf(old(disk))) || old(fuse) >= 3
      ensures fuse == FuseAfterOpen(old(disk), old(fuse))
      ensures r.Err? ==> Interrupted(r, Io, fuse)
    {
      ReopenLevel(disk);
      if disk.anchor == Some(Anchor(count, hash)) { return Ok(true); }
      PersistSound(disk, fuse);
      var ok := PersistAnchor(count, hash);
      if !ok { return Err(Io); }
      r := Ok(true);
    }

    method Load(scope: nat) returns (r: Result<Option<Checkpoint>>)
      requires Valid()
      ensures r.Ok? ==> scope != 0 && r.value == Lookup(MapOf(disk.log), scope)
      ensures r.Err? <==> poisoned || scope == 0
    {
      if poisoned { return Err(Unavailable); }
      if scope == 0 { return Err(InvalidConfig); }
      r := Ok(Lookup(current, scope));
    }

    /** The authority serves, and the advance is the scope's next one. */
    predicate Serves(expected: Option<Checkpoint>, target: Checkpoint)
      reads this
    {
      !poisoned && target.scope != 0 && Due(disk.log, expected, target)
    }

    /** Compare-and-advance: acknowledged only once record, directory and anchor are durable. */
    method Advance(expected: Option<Checkpoint>, target: Checkpoint) returns (r: Result<bool>)
      requires Valid()
      modifies this
      ensures Valid() && Kept(old(disk), disk) && torn == old(torn)
      ensures fuse == if !old(Serves(expected, target)) then old(fuse) else if r.Ok? then old(fuse) - 6 else 0
      ensures poisoned == (old(poisoned) || (old(Serves(expected, target)) && old(fuse) < 6))
      ensures disk == if old(Serves(expected, target))
                      then AppendedAt(old(disk), NextRecord(old(disk).log, expected, target), old(fuse), old(torn))
                      else old(disk)
      ensures r.Ok? <==> old(Serves(expected, target)) && old(fuse) >= 6
      ensures r.Ok? ==> !poisoned && Behind(disk)
      ensures r.Ok? ==> Durable(disk) == disk.log == old(disk).log + [NextRecord(old(disk).log, expected, target)]
      ensures r == Err(CompareFailed) ==> poisoned == old(poisoned) && !Due(disk.log, expected, target)
      ensures r.Err? && old(Serves(expected, target)) ==> poisoned && Interrupted(r, Io, fuse)
    {
      var refusal := Examine(expected, target);
      if refusal.Some? { return Err(refusal.value); }
      r := Append(Record(count + 1, target.scope, expected, target, hash));
    }

    /** The checks of an advance, in order. */
    method Examine(expected: Option<Checkpoint>, target: Checkpoint) returns (refusal: Option<Code>)
      requires Valid()
      ensures refusal.None? <==> Serves(expected, target)
      ensures refusal == Some(CompareFailed) ==> !Due(disk.log, expected, target)
      ensures refusal != Some(Io)
    {
      if poisoned { return Some(Unavailable); }
      if target.scope == 0 { return Some(InvalidConfig); }
      if expected.Some? && expected.value.scope != target.scope { return Some(CompareFailed); }
      if !ShapeOk(expected, target) { return Some(CompareFailed); }
      if Lookup(current, target.scope) != expected { return Some(CompareFailed); }
      if count + 1 >= U64 { return Some(InvalidLog); }
      refusal := None;
    }

    /** Writes, syncs and anchors one record that fits. */
    method Append(record: Record) returns (r: Result<bool>)
      requires Valid() && !poisoned && Fits(disk.log, record)
      modifies this
      ensures Valid() && Kept(old(disk), disk) && disk == AppendedAt(old(disk), record, old(fuse), old(torn))
      ensures r.Ok? <==> old(fuse) >= 6
      ensures torn == old(torn) && fuse == if r.Ok? then old(fuse) - 6 else 0
      ensures r.Ok? ==> !poisoned && Durable(disk) == disk.log == old(disk).log + [record] && Behind(disk)
      ensures r.Err? ==> poisoned && Interrupted(r, Io, fuse)
    {
      AppendedSound(disk, record, fuse, torn);
      if fuse >= 6 {
        ServedNext(disk, current, record, fuse, torn);
        AppendedWhole(disk, record, fuse, torn);
      }
      var ok := WriteAndAnchor(record);
      poisoned := !ok;
      r := if ok then Ok(true) else Err(Io);
    }

    method WriteAndAnchor(record: Record) returns (ok: bool)
      requires record.sequence == |disk.log| + 1
      modifies this`disk, this`fuse, this`current, this`count, this`hash
      ensures disk == AppendedAt(old(disk), record, old(fuse), torn) && ok == (old(fuse) >= 6)
      ensures ok ==> current == old(current)[record.scope := record.target]
      ensures ok ==> count == record.sequence && hash == OfRecord(record)
      ensures fuse == if ok then old(fuse) - 6 else 0
    {
      ok := WriteRecord(record);
      if !ok { return; }
      current, count, hash := current[record.scope := record.target], record.sequence, OfRecord(record);
      ok := PersistAnchor(count, hash);
    }

    /** The record is written, then the journal and its directory are synced. */
    method WriteRecord(record: Record) returns (ok: bool)
      modifies this`disk, this`fuse
      ensures disk == Wrote(old(disk), record, old(fuse), torn) && ok == (old(fuse) >= 3)
      ensures fuse == if ok then old(fuse) - 3 else 0
    {
      ok := Tick();
      if !ok {
        if torn { disk := disk.(tail := true); }
        return;
      }
      disk := Appended(disk, record);
      ok := Tick();
      if !ok { return; }
      disk := Synced(disk);
      ok := Tick();
    }

    /** Power is lost: the owner is gone, and with it whatever was not durable. */
    method PowerCut(keep: nat, tearing: bool, survivor: Option<Anchor>)
      requires Valid()
      modifies this
      ensures Valid() && poisoned && fuse == 0 && torn == old(torn)
      ensures disk == AfterCut(old(disk), keep, tearing, survivor)
      ensures Kept(old(disk), disk) && disk.synced == |disk.log| && (Behind(old(disk)) ==> Level(disk))
    {
      CutSound(disk, keep, tearing, survivor);
      disk := AfterCut(disk, keep, tearing, survivor);
      poisoned, fuse := true, 0;
    }
  }

  /** What was durable stays, and an anchor behind the durable log stays behind it. */
  ghost predicate Kept(d: Disk, e: Disk)
  {
    d.synced <= |d.log| && e.synced <= |e.log| && Durable(d) <= Durable(e) && (Behind(d) ==> Behind(e))
  }

  lemma {:induction false} AnchorKept(c: Disk, d: Disk, e: Disk)
    requires Kept(c, d) && e == d.(anchor := e.anchor, anchors := e.anchors) && d.synced == |d.log|
    requires (Behind(d) ==> Behind(e))
    ensures Kept(c, e) && Durable(e) == e.log
  {
    assert e.log[..|e.log|] == e.log;
  }

  /** The advance is the scope's next one, and the journal has room for it. */
  predicate Due(log: seq<Record>, expected: Option<Checkpoint>, target: Checkpoint)
  {
    ShapeOk(expected, target) && Lookup(MapOf(log), target.scope) == expected && |log| + 1 < U64
  }

  function NextRecord(log: seq<Record>, expected: Option<Checkpoint>, target: Checkpoint): Record
  {
    Record(|log| + 1, target.scope, expected, target, HashOf(log))
  }

  // ---------- whole runs ----------

  datatype Op = DoAdvance(expected: Option<Checkpoint>, target: Checkpoint) | Reopen(steps: nat)
    | Cut(keep: nat, tearing: bool, survivor: Option<Anchor>)

  /** Everything a later operation depends on. */
  datatype Moment = Moment(disk: Disk, fuse: nat, torn: bool, poisoned: bool)

  ghost predicate Healthy(s: Moment) { Sound(s.disk) && (!s.poisoned ==> Level(s.disk)) }

  predicate ServesAt(s: Moment, expected: Option<Checkpoint>, target: Checkpoint)
  {
    !s.poisoned && target.scope != 0 && Due(s.disk.log, expected, target)
  }

  /** What an operation leaves, to the last disk step. */
  function After(s: Moment, op: Op): Moment
    requires s.disk.synced <= |s.disk.log|
  {
    match op
    case Cut(keep, tearing, survivor) => Moment(AfterCut(s.disk, keep, tearing, survivor), 0, s.torn, true)
    case Reopen(steps) =>
      var ok := !Refused(s.disk) && (s.disk.anchor == Some(HeadOf(s.disk)) || steps >= 3);
      Moment(Reopened(s.disk, steps), FuseAfterOpen(s.disk, steps), s.torn, !ok)
    case DoAdvance(expected, target) =>
      if ServesAt(s, expected, target) then
        var d := AppendedAt(s.disk, NextRecord(s.disk.log, expected, target), s.fuse, s.torn);
        Moment(d, if s.fuse >= 6 then s.fuse - 6 else 0, s.torn, s.fuse < 6)
      else s
  }

  /** The record of an acknowledged advance. */
  function Acknowledged(s: Moment, op: Op): Option<Record>
  {
    if op.DoAdvance? && ServesAt(s, op.expected, op.target) && s.fuse >= 6
    then Some(NextRecord(s.disk.log, op.expected, op.target)) else None
  }

  /** The operation is a reopening that moves the anchor past the durable log. */
  predicate Overtaking(d: Disk, op: Op) { op.Reopen? && Overtakes(d, op.steps) }

  lemma {:induction false} AdvanceKeeps(s: Moment, op: Op)
    requires Healthy(s) && op.DoAdvance?
    ensures Healthy(After(s, op)) && Kept(s.disk, After(s, op).disk)
    ensures Acknowledged(s, op).Some? ==> Acknowledged(s, op).value in Durable(After(s, op).disk)
  {
    if ServesAt(s, op.expected, op.target) {
      var r := NextRecord(s.disk.log, op.expected, op.target);
      AppendedSound(s.disk, r, s.fuse, s.torn);
      if s.fuse >= 6 {
        AppendedWhole(s.disk, r, s.fuse, s.torn);
        assert (s.disk.log + [r])[|s.disk.log|] == r;
      }
    }
  }

  lemma {:induction false} ReopenKeeps(s: Moment, op: Op)
    requires Healthy(s) && op.Reopen?
    ensures Healthy(After(s, op)) && Durable(s.disk) == Durable(After(s, op).disk)
    ensures Behind(s.disk) ==> (Behind(After(s, op).disk) <==> !Overtaking(s.disk, op))
  {
    ReopenSound(s.disk, op.steps);
    if !Refused(s.disk) {
      ReopenLevel(s.disk);
      PersistSound(s.disk, op.steps);
    }
  }

  /** A step keeps what is durable, and an anchor behind the durable log stays behind unless the step is overtaking. */
  lemma {:induction false} StepKeeps(s: Moment, op: Op)
    requires Healthy(s)
    ensures Healthy(After(s, op)) && Durable(s.disk) <= Durable(After(s, op).disk)
    ensures Behind(s.disk) ==> (Behind(After(s, op).disk) <==> !Overtaking(s.disk, op))
    ensures Acknowledged(s, op).Some? ==> Acknowledged(s, op).value in Durable(After(s, op).disk)
  {
    match op
    case Reopen(_) => ReopenKeeps(s, op);
    case Cut(keep, tearing, survivor) => CutSound(s.disk, keep, tearing, survivor);
    case DoAdvance(_, _) => AdvanceKeeps(s, op);
  }

  /** The moments of a run: the first and the operations determine all of them. */
  ghost predicate Legal(trace: seq<Moment>, ops: seq<Op>)
  {
    && |trace| == |ops| + 1 && Healthy(trace[0])
    && forall i :: 0 <= i < |ops| ==> Follows(trace[i], ops[i], trace[i + 1])
  }

  ghost predicate Follows(s: Moment, op: Op, t: Moment) { s.disk.synced <= |s.disk.log| && t == After(s, op) }

  lemma {:induction false} LegalHealthy(trace: seq<Moment>, ops: seq<Op>, i: nat)
    requires Legal(trace, ops) && i < |trace|
    ensures Healthy(trace[i])
  {
    if i > 0 {
      LegalHealthy(trace, ops, i - 1);
      assert Follows(trace[i - 1], ops[i - 1], trace[i]);
      StepKeeps(trace[i - 1], ops[i - 1]);
    }
  }

  lemma {:induction false} DurableGrows(trace: seq<Moment>, ops: seq<Op>, i: nat, j: nat)
    requires Legal(trace, ops) && i <= j < |trace|
    ensures Healthy(trace[i]) && Healthy(trace[j]) && Durable(trace[i].disk) <= Durable(trace[j].disk)
  {
    LegalHealthy(trace, ops, i);
    LegalHealthy(trace, ops, j);
    if i < j {
      DurableGrows(trace, ops, i, j - 1);
      assert Follows(trace[j - 1], ops[j - 1], trace[j]);
      StepKeeps(trace[j - 1], ops[j - 1]);
    }
  }

  /** An acknowledged advance is durable at every later point of the run. */
  lemma {:induction false} AcknowledgedLasts(trace: seq<Moment>, ops: seq<Op>, i: nat, j: nat)
    requires Legal(trace, ops) && i < j < |trace| && Acknowledged(trace[i], ops[i]).Some?
    ensures Healthy(trace[j]) && Acknowledged(trace[i], ops[i]).value in Durable(trace[j].disk)
  {
    LegalHealthy(trace, ops, i);
    assert Follows(trace[i], ops[i], trace[i + 1]);
    StepKeeps(trace[i], ops[i]);
    DurableGrows(trace, ops, i + 1, j);
    PrefixHolds(Durable(trace[i + 1].disk), Durable(trace[j].disk), Acknowledged(trace[i], ops[i]).value);
  }

  lemma {:induction false} NeverOvertaken(trace: seq<Moment>, ops: seq<Op>, i: nat)
    requires Legal(trace, ops) && i < |trace| && Behind(trace[0].disk)
    requires forall j :: 0 <= j < |ops| ==> !Overtaking(trace[j].disk, ops[j])
    ensures Behind(trace[i].disk)
  {
    if i > 0 {
      NeverOvertaken(trace, ops, i - 1);
      LegalHealthy(trace, ops, i - 1);
      assert Follows(trace[i - 1], ops[i - 1], trace[i]);
      StepKeeps(trace[i - 1], ops[i - 1]);
    }
  }

  /** The anchor is behind the durable journal at every point of a run exactly when no reopening overtook it. */
  lemma {:induction false} AnchorBehindExactly(trace: seq<Moment>, ops: seq<Op>)
    requires Legal(trace, ops)
    ensures (forall i :: 0 <= i < |trace| ==> Behind(trace[i].disk))
            <==> Behind(trace[0].disk) && forall j :: 0 <= j < |ops| ==> !Overtaking(trace[j].disk, ops[j])
  {
    if Behind(trace[0].disk) && forall j :: 0 <= j < |ops| ==> !Overtaking(trace[j].disk, ops[j]) {
      forall i | 0 <= i < |trace| ensures Behind(trace[i].disk) { NeverOvertaken(trace, ops, i); }
    }
    if forall i :: 0 <= i < |trace| ==> Behind(trace[i].disk) {
      forall j | 0 <= j < |ops| ensures !Overtaking(trace[j].disk, ops[j]) {
        LegalHealthy(trace, ops, j);
        assert Follows(trace[j], ops[j], trace[j + 1]);
        StepKeeps(trace[j], ops[j]);
      }
    }
  }

  function Now(a: Authority): Moment
    reads a
  {
    Moment(a.disk, a.fuse, a.torn, a.poisoned)
  }

  /** One operation; an acknowledged advance is returned as the journal record it left. */
  method Perform(a: Authority, op: Op) returns (ack: Option<Record>)
    requires a.Valid()
    modifies a
    ensures a.Valid() && old(a.disk).synced <= |old(a.disk).log| && Now(a) == After(old(Now(a)), op)
    ensures ack == Acknowledged(old(Now(a)), op)
  {
    ack := None;
    match op
    case DoAdvance(expected, target) => {
      ghost var log := a.disk.log;
      var r := a.Advance(expected, target);
      if r.Ok? {
        ack := Some(a.disk.log[|a.disk.log| - 1]);
        assert ack.value == NextRecord(log, expected, target);
      }
    }
    case Reopen(steps) => { var r := a.Open(steps); }
    case Cut(keep, tearing, survivor) => { a.PowerCut(keep, tearing, survivor); }
  }

  /** There is one answer for each operation, and it is the record of exactly the acknowledged advances. */
  ghost predicate Answers(trace: seq<Moment>, ops: seq<Op>, acks: seq<Option<Record>>)
  {
    |acks| == |ops| < |trace| && forall i :: 0 <= i < |ops| ==> acks[i] == Acknowledged(trace[i], ops[i])
  }

  /**
   Any run of advances, restarts and power cuts with failing disk steps.  While it serves, the map
   is the replay of the journal.  There is one answer for each operation: an advance is acknowledged
   exactly when it is due and the disk lasts, and its record is durable at every later point.  The
   anchor is behind the durable journal throughout exactly when no reopening overtook it.
   */
  method Run(a: Authority, ops: seq<Op>) returns (acks: seq<Option<Record>>, ghost trace: seq<Moment>)
    requires a.Valid()
    modifies a
    ensures a.Valid() && Legal(trace, ops) && trace[0] == old(Now(a)) && trace[|ops|] == Now(a)
    ensures Answers(trace, ops, acks)
    ensures forall i, j :: 0 <= i < j < |trace| && acks[i].Some? ==>
              trace[j].disk.synced <= |trace[j].disk.log| && acks[i].value in Durable(trace[j].disk)
    ensures (forall i :: 0 <= i < |trace| ==> Behind(trace[i].disk))
            <==> Behind(old(a.disk)) && forall j :: 0 <= j < |ops| ==> !Overtaking(trace[j].disk, ops[j])
  {
    acks, trace := [], [Now(a)];
    var i := 0;
    while i < |ops|
      invariant 0 <= i <= |ops| && a.Valid() && Legal(trace, ops[..i]) && Answers(trace, ops[..i], acks)
      invariant trace[0] == old(Now(a)) && trace[i] == Now(a)
    {
      var ack := Perform(a, ops[i]);
      LegalNext(trace, ops, i, Now(a));
      trace := trace + [Now(a)];
      acks, i := acks + [ack], i + 1;
    }
    assert ops[..i] == ops;
    AnswersLast(trace, ops, acks);
    AnchorBehindExactly(trace, ops);
  }

  lemma {:induction false} AnswersLast(trace: seq<Moment>, ops: seq<Op>, acks: seq<Option<Record>>)
    requires Legal(trace, ops) && Answers(trace, ops, acks)
    ensures forall i, j :: 0 <= i < j < |trace| && acks[i].Some? ==>
              trace[j].disk.synced <= |trace[j].disk.log| && acks[i].value in Durable(trace[j].disk)
  {
    forall i, j | 0 <= i < j < |trace| && acks[i].Some?
      ensures trace[j].disk.synced <= |trace[j].disk.log| && acks[i].value in Durable(trace[j].disk)
    {
      AcknowledgedLasts(trace, ops, i, j);
    }
  }

  lemma {:induction false} LegalNext(trace: seq<Moment>, ops: seq<Op>, i: nat, t: Moment)
    requires i < |ops| && Legal(trace, ops[..i]) && Follows(trace[i], ops[i], t)
    ensures Legal(trace + [t], ops[..i + 1])
  {
    var longer := trace + [t];
    forall j | 0 <= j < i + 1 ensures Follows(longer[j], ops[..i + 1][j], longer[j + 1]) {
      if j < i { assert Follows(trace[j], ops[..i][j], trace[j + 1]); }
    }
  }

  lemma {:induction false} PrefixHolds(x: seq<Record>, y: seq<Record>, r: Record)
    requires x <= y && r in x
    ensures r in y
  {
    var i :| 0 <= i < |x| && x[i] == r;
    assert y[i] == r;
  }

  /**
   The run of AnchorOvertakes, on the authority itself: it serves with an anchor ahead of the
   durable log, and after a power cut it never opens again.
   */
  method Overtake(c: Checkpoint, steps: nat) returns (a: Authority, ghost served: Disk, r: Result<bool>)
    requires c.scope != 0 && c.generation == 0 && c.predecessor == Zero
    ensures fresh(a) && a.Valid()
    ensures Sound(served) && !Behind(served) && served.anchor == Some(HeadOf(served)) && |served.log| == 1
    ensures r.Err? && Refused(a.disk) && a.disk == AfterCut(served, 0, false, served.anchor)
  {
    a := ServeUnsynced(c);
    served := a.disk;
    Overtaken(Record(1, c.scope, None, c, NoRecord), Anchor(0, NoRecord));
    a.PowerCut(0, false, a.disk.anchor);
    r := a.Open(steps);
  }

  /** An authority that serves a record its disk has not synced. */
  method ServeUnsynced(c: Checkpoint) returns (a: Authority)
    requires c.scope != 0 && c.generation == 0 && c.predecessor == Zero
    ensures fresh(a) && a.Valid() && !a.poisoned
    ensures var first, r := Some(Anchor(0, NoRecord)), Record(1, c.scope, None, c, NoRecord);
            a.disk == Reopened(Disk([r], 0, false, first, {first}), 3)
  {
    VisibleRecord(c);
    a := new Authority(0, false);
    var r := a.Open(4);
    assert a.disk == Disk([], 0, false, Some(Anchor(0, NoRecord)), {Some(Anchor(0, NoRecord))}) && a.fuse == 1;
    r := a.Advance(None, c);
    r := a.Open(3);
  }

  /**
   After a power cut, reopening keeps every durable record and fails only on a torn tail, a missing
   anchor, an anchor that had overtaken the journal, or the disk.
   */
  method CutAndReopen(a: Authority, keep: nat, tearing: bool, survivor: Option<Anchor>, steps: nat)
    returns (r: Result<bool>)
    requires a.Valid()
    modifies a
    ensures a.Valid() && Durable(old(a.disk)) <= Durable(a.disk) && (Behind(old(a.disk)) ==> Behind(a.disk))
    ensures r.Ok? ==> !a.poisoned && a.current == MapOf(a.disk.log)
    ensures r.Err? ==> Interrupted(r, Io, a.fuse) || a.disk.tail || a.disk.anchor.None?
                       || (a.disk.anchor.value.count > |a.disk.log| && !Behind(old(a.disk)))
  {
    a.PowerCut(keep, tearing, survivor);
    r := a.Open(steps);
  }
}
