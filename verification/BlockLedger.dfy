/**
 The single-writer block ledger: admission of blocks with deltas and snapshots, lookup of
 the state of any block, and activation of a heavier tip by a persisted, staged and
 atomically published reorganisation.  Each SQL transaction is one atomic step; `cut` makes
 the owner stop at any point between two transactions.
 */
module BlockLedger {
  import opened Wrappers
  import opened Consensus
  import opened BlockTree

  const SNAPSHOT_INTERVAL: nat := 128
  const RETAINED_SNAPSHOTS: nat := 64

  /** The reorganisation row. */
  datatype Intent = Intent(oldTip: Id, newTip: Id, generation: nat, steps: seq<Step>, position: nat, done: bool)

  datatype Outcome = Active(tip: Id) | Stopped | Refused(code: Code)
  datatype Code = GenerationMismatch | UndoRoot | RootMismatch | UnknownBlock | ReorgInProgress | DuplicateContent
                | HeightMismatch | TargetMismatch | TimeDeferred | TimeInvalid | Evidence | Execution | WorkLimit

  datatype Candidate = Candidate(id: Id, parent: Id, height: nat, header: Header, body: Body, root: Root)

  /** The strictly heavier block, or the current one on a tie. */
  function Heavier(blocks: Blocks, tip: Id, target: Id): Id
    requires tip in blocks && target in blocks
  {
    if blocks[target].chainwork > blocks[tip].chainwork then target else tip
  }

  /** The order recovery takes blocks in: most work, then least height, then least id. */
  predicate Preferred(blocks: Blocks, a: Id, b: Id)
    requires a in blocks && b in blocks
  {
    blocks[a].chainwork > blocks[b].chainwork
    || (blocks[a].chainwork == blocks[b].chainwork
        && (blocks[a].height < blocks[b].height || (blocks[a].height == blocks[b].height && a <= b)))
  }

  /** Number of stop points left before the owner stops; None never stops. */
  type Cut = Option<nat>

  predicate StopsHere(cut: Cut) { cut == Some(0) }
  function Next(cut: Cut): Cut { if cut.Some? && cut.value > 0 then Some(cut.value - 1) else cut }

  /** All generations' events, in order. */
  ghost function Flat(events: seq<seq<Step>>): seq<Step>
  {
    if events == [] then [] else Flat(events[..|events| - 1]) + events[|events| - 1]
  }

  // ---------- what holds between any two transactions ----------

  ghost predicate LiveOk(r: Rules, blocks: Blocks, kv: map<nat, State>, tip: Id, slot: nat, generation: nat)
    requires Tree(r, blocks)
  {
    tip in blocks && slot <= generation && slot in kv && kv[slot] == Replay(r, blocks, tip)
  }

  /** The staged slot holds the state of the block the first `position` steps lead to. */
  ghost predicate StagedAt(r: Rules, blocks: Blocks, kv: map<nat, State>, i: Intent, cursor: Id)
    requires Tree(r, blocks)
  {
    && cursor in blocks && i.newTip in blocks && i.generation in kv && i.position <= |i.steps|
    && kv[i.generation] == Replay(r, blocks, cursor)
    && Leads(r, blocks, i.oldTip, i.steps[..i.position], cursor)
    && Leads(r, blocks, cursor, i.steps[i.position..], i.newTip)
  }

  lemma {:induction false} StagedAtEnd(r: Rules, blocks: Blocks, kv: map<nat, State>, i: Intent, cursor: Id)
    requires Tree(r, blocks) && i.position == |i.steps| && StagedAt(r, blocks, kv, i, cursor)
    ensures kv[i.generation] == Replay(r, blocks, i.newTip) && Leads(r, blocks, i.oldTip, i.steps, i.newTip)
  {
    assert i.steps[..i.position] == i.steps && i.steps[i.position..] == [];
  }

  ghost predicate IntentOk(r: Rules, blocks: Blocks, kv: map<nat, State>, tip: Id, generation: nat,
                           reorg: Option<Intent>)
    requires Tree(r, blocks) && tip in blocks
  {
    reorg.Some? && !reorg.value.done ==>
      && reorg.value.oldTip == tip
      && reorg.value.generation == generation + 1
      && reorg.value.newTip in blocks
      && blocks[reorg.value.newTip].chainwork > blocks[tip].chainwork
      && exists cursor :: StagedAt(r, blocks, kv, reorg.value, cursor)
  }

  ghost predicate EventsOk(r: Rules, blocks: Blocks, events: seq<seq<Step>>, tip: Id, generation: nat)
  {
    |events| == generation && Leads(r, blocks, r.genesis, Flat(events), tip)
  }

  lemma {:induction false} FlatSnoc(events: seq<seq<Step>>, more: seq<Step>)
    ensures Flat(events + [more]) == Flat(events) + more
  {
    assert (events + [more])[..|events|] == events;
  }

  lemma {:induction false} EventsStep(r: Rules, blocks: Blocks, events: seq<seq<Step>>, tip: Id, generation: nat,
                                      steps: seq<Step>, next: Id)
    requires EventsOk(r, blocks, events, tip, generation) && Leads(r, blocks, tip, steps, next)
    ensures EventsOk(r, blocks, events + [steps], next, generation + 1)
  {
    FlatSnoc(events, steps);
    LeadsConcat(r, blocks, r.genesis, Flat(events), tip, steps, next);
  }

  /** A fully staged slot holds the target's state and its root, and the event log leads there. */
  lemma {:induction false} ReadyToPublish(r: Rules, blocks: Blocks, deltas: map<Id, Delta>, kv: map<nat, State>,
                                          tip: Id, generation: nat, i: Intent, events: seq<seq<Step>>)
    requires StoreOk(r, blocks, deltas) && tip in blocks && IntentOk(r, blocks, kv, tip, generation, Some(i)) && !i.done
    requires i.position == |i.steps| && EventsOk(r, blocks, events, tip, generation)
    ensures i.generation in kv && i.newTip in blocks && kv[i.generation] == Replay(r, blocks, i.newTip)
    ensures r.root(kv[i.generation]) == blocks[i.newTip].root
    ensures EventsOk(r, blocks, events + [i.steps], i.newTip, generation + 1)
  {
    var cursor :| StagedAt(r, blocks, kv, i, cursor);
    StagedAtEnd(r, blocks, kv, i, cursor);
    assert BlockOk(r, blocks, deltas, i.newTip);
    EventsStep(r, blocks, events, tip, generation, i.steps, i.newTip);
  }

  class Ledger {
    const rules: Rules
    /** Everything admission checks besides links, target, time and execution: limits, task, transaction root, work. */
    const evidence: (State, Candidate) -> bool

    var blocks: Blocks
    var deltas: map<Id, Delta>
    var snapshots: map<Id, State>
    var kv: map<nat, State>
    var tip: Id
    var generation: nat
    var slot: nat
    var reorg: Option<Intent>
    var events: seq<seq<Step>>

    ghost predicate Valid()
      reads this
    {
      && StoreOk(rules, blocks, deltas)
      && SnapshotsOk(rules, blocks, snapshots)
      && LiveOk(rules, blocks, kv, tip, slot, generation)
      && IntentOk(rules, blocks, kv, tip, generation, reorg)
      && EventsOk(rules, blocks, events, tip, generation)
    }

    predicate Pending()
      reads this
    {
      reorg.Some? && !reorg.value.done
    }

    constructor (rules: Rules, evidence: (State, Candidate) -> bool)
      requires rules.params.Valid()
      ensures this.rules == rules && this.evidence == evidence
      ensures Valid() && !Pending()
      ensures tip == rules.genesis && blocks.Keys == {rules.genesis} && kv[slot] == rules.genesisState
    {
      this.rules, this.evidence := rules, evidence;
      var g := Block(None, 0, 0, Header(rules.params.genesisTime, rules.params.initialTarget), "",
                     rules.root(rules.genesisState));
      blocks := map[rules.genesis := g];
      deltas := map[];
      snapshots := map[rules.genesis := rules.genesisState];
      kv := map[0 := rules.genesisState];
      tip, generation, slot := rules.genesis, 0, 0;
      reorg, events := None, [];
      new;
      assert Linked(rules, blocks, rules.genesis);
      assert BlockOk(rules, blocks, deltas, rules.genesis);
      assert SnapshotOk(rules, blocks, snapshots, rules.genesis);
    }

    /** Readers see the slot the active row names; its root always matches the tip's. */
    method ReadActive() returns (s: State, ok: bool)
      requires Valid()
      ensures ok && s == Replay(rules, blocks, tip)
    {
      s := kv[slot];
      assert BlockOk(rules, blocks, deltas, tip);
      ok := rules.root(s) == blocks[tip].root;
    }

    /** Applies (or undoes) one block's delta in one slot, inside a transaction that is rolled back on a mismatch. */
    method ApplyDelta(id: Id, target: nat, detach: bool) returns (ok: bool)
      requires id in deltas && target in kv
      modifies this`kv
      ensures ok <==> Applies(old(kv[target]), deltas[id], detach)
      ensures !ok ==> kv == old(kv)
      ensures ok ==> target in kv && kv == old(kv)[target := kv[target]]
      ensures ok ==> Patched(old(kv[target]), kv[target], deltas[id], detach)
    {
      var d, s := deltas[id], kv[target];
      var todo := d.Keys;
      while todo != {}
        invariant todo <= d.Keys
        invariant forall k :: k in d && k !in todo ==> Get(kv[target], k) == Expected(d, k, detach)
        invariant forall k :: Get(s, k) == if k in d && k !in todo then New(d, k, detach) else Get(kv[target], k)
      {
        var k :| k in todo;
        if Get(s, k) != Expected(d, k, detach) {
          return false;
        }
        s := Set(s, k, New(d, k, detach));
        todo := todo - {k};
      }
      kv := kv[target := s];
      ok := true;
    }

    /** One staged step: one delta into the staging slot and the position, in one transaction. */
    method StageStep() returns (ok: bool)
      requires Valid() && Pending() && reorg.value.position < |reorg.value.steps|
      modifies this`kv, this`reorg
      ensures ok && Valid()
      ensures reorg == Some(old(reorg.value).(position := old(reorg.value.position) + 1))
    {
      var i := reorg.value;
      ghost var cursor :| StagedAt(rules, blocks, kv, i, cursor);
      var step := i.steps[i.position];
      ghost var there := StepTarget(rules, blocks, i, cursor);
      ghost var before := kv;
      StepState(rules, blocks, deltas, before[i.generation], step, cursor, before[i.generation]);
      ok := ApplyDelta(step.block, i.generation, step.Detach?);
      StepState(rules, blocks, deltas, before[i.generation], step, cursor, kv[i.generation]);
      if !ok { return; }
      reorg := Some(i.(position := i.position + 1));
      assert StagedAt(rules, blocks, kv, reorg.value, there);
    }

    /** The atomic publication: active row, events, intent status and slot cleanup in one transaction. */
    method Publish() returns (ok: bool)
      requires Valid() && Pending() && reorg.value.position == |reorg.value.steps|
      modifies this
      ensures ok && Valid() && !Pending()
      ensures blocks == old(blocks) && deltas == old(deltas) && snapshots == old(snapshots)
      ensures tip == old(reorg.value.newTip) && generation == slot == old(generation) + 1
      ensures kv == map[slot := Replay(rules, blocks, tip)]
      ensures events == old(events) + [old(reorg.value.steps)]
    {
      var i := reorg.value;
      ReadyToPublish(rules, blocks, deltas, kv, tip, generation, i, events);
      var staged := kv[i.generation];
      ok := rules.root(staged) == blocks[i.newTip].root;
      if !ok { return; }
      tip, generation, slot := i.newTip, i.generation, i.generation;
      events := events + [i.steps];
      reorg := Some(i.(done := true));
      kv := map[i.generation := staged];
    }

    /** Drives a pending reorganisation to publication; a stop leaves it exactly as the last transaction left it. */
    method RecoverIntent(cut: Cut) returns (out: Outcome, left: Cut)
      requires Valid()
      modifies this
      ensures Valid() && !out.Refused?
      ensures blocks == old(blocks) && deltas == old(deltas) && snapshots == old(snapshots)
      ensures Settled() == old(Settled())
      ensures tip in blocks && old(tip) in blocks
      ensures (tip == old(tip) || blocks[tip].chainwork > blocks[old(tip)].chainwork)
      ensures out.Active? ==> !Pending() && out.tip == tip
      ensures out.Active? ==> generation == old(generation) + if old(Pending()) then 1 else 0
      ensures Pending() ==> out.Stopped? && tip == old(tip) && slot == old(slot) && generation == old(generation)
                            && slot in old(kv) && kv[slot] == old(kv[slot])
      ensures cut.None? ==> left.None? && out.Active?
    {
      left := cut;
      if !Pending() { return Active(tip), left; }
      if !(tip == reorg.value.oldTip && generation == reorg.value.generation - 1) {
        return Refused(GenerationMismatch), left;
      }
      ghost var newTip := reorg.value.newTip;
      while reorg.value.position < |reorg.value.steps|
        invariant Valid() && Pending() && reorg.value.newTip == newTip
        invariant blocks == old(blocks) && deltas == old(deltas) && snapshots == old(snapshots)
        invariant tip == old(tip) && slot == old(slot) && generation == old(generation)
        invariant slot in old(kv) && kv[slot] == old(kv[slot])
        invariant cut.None? ==> left.None?
        decreases |reorg.value.steps| - reorg.value.position
      {
        var ok := StageStep();
        if !ok { return Refused(UndoRoot), left; }
        if StopsHere(left) { return Stopped, left; }
        left := Next(left);
      }
      if StopsHere(left) { return Stopped, left; }
      left := Next(left);
      var ok := Publish();
      if !ok { return Refused(RootMismatch), left; }
      if StopsHere(left) { return Stopped, left; }
      left := Next(left);
      out := Active(tip);
    }

    /** The ordinary extension: the tip's child, written in place in the live slot by one transaction. */
    method Extend(target: Id) returns (ok: bool)
      requires Valid() && !Pending() && target in blocks && target != rules.genesis
      requires Parent(rules, blocks, target) == tip
      modifies this`kv, this`tip, this`generation, this`events
      ensures ok && Valid()
      ensures tip == target && generation == old(generation) + 1 && events == old(events) + [[Attach(target)]]
    {
      StepState(rules, blocks, deltas, kv[slot], Attach(target), tip, kv[slot]);
      ghost var before := kv;
      ok := ApplyDelta(target, slot, false);
      StepState(rules, blocks, deltas, before[slot], Attach(target), tip, kv[slot]);
      assert BlockOk(rules, blocks, deltas, target);
      if !ok || rules.root(kv[slot]) != blocks[target].root { return false; }
      EventsStep(rules, blocks, events, tip, generation, [Attach(target)], target);
      tip, generation := target, generation + 1;
      events := events + [[Attach(target)]];
    }

    /** Persists the intent and a private copy of the live slot under the next generation. */
    method Begin(target: Id)
      requires Valid() && !Pending() && target in blocks && blocks[target].chainwork > blocks[tip].chainwork
      modifies this`kv, this`reorg
      ensures Valid() && Pending() && reorg.value.newTip == target && reorg.value.position == 0
      ensures slot < reorg.value.generation && kv[slot] == old(kv[slot])
    {
      var steps := PathBetween(rules, blocks, tip, target);
      kv := kv[generation + 1 := kv[slot]];
      reorg := Some(Intent(tip, target, generation + 1, steps, 0, false));
      assert steps[..0] == [] && steps[0..] == steps;
      assert StagedAt(rules, blocks, kv, reorg.value, tip);
    }

    /**
     The staged reorganisation to a heavier block.  Until publication readers stay on the
     old tip and the live slot is never written.
     */
    method Reorganise(target: Id, cut: Cut) returns (out: Outcome)
      requires Valid() && !Pending() && target in blocks && blocks[target].chainwork > blocks[tip].chainwork
      modifies this
      ensures Valid() && blocks == old(blocks) && deltas == old(deltas) && snapshots == old(snapshots)
      ensures tip in blocks && old(tip) in blocks
      ensures (tip == old(tip) || blocks[tip].chainwork > blocks[old(tip)].chainwork)
      ensures !out.Refused? && Settled() == target && (cut.None? ==> out.Active?)
      ensures out.Active? ==> out.tip == tip && !Pending()
      ensures Pending() ==> tip == old(tip) && slot == old(slot) && kv[slot] == old(kv[slot])
    {
      Begin(target);
      if StopsHere(cut) { return Stopped; }
      var left;
      out, left := RecoverIntent(Next(cut));
    }

    /** With nothing pending, moves to `target` if it is strictly heavier. */
    method Advance(target: Id, cut: Cut, inPlace: bool) returns (out: Outcome)
      requires Valid() && !Pending() && target in blocks
      modifies this
      ensures Valid() && blocks == old(blocks) && deltas == old(deltas) && snapshots == old(snapshots)
      ensures tip in blocks && old(tip) in blocks
      ensures (tip == old(tip) || blocks[tip].chainwork > blocks[old(tip)].chainwork)
      ensures !out.Refused? && (cut.None? ==> out.Active?)
      ensures Settled() == old(Heavier(blocks, tip, target))
      ensures out.Active? ==> out.tip == tip && !Pending()
      ensures Pending() ==> tip == old(tip)
    {
      if blocks[target].chainwork <= blocks[tip].chainwork { return Active(tip); }
      if blocks[target].parent == Some(tip) && inPlace {
        ParentFacts(rules, blocks, target);
        var ok := Extend(target);
        return Active(tip);
      }
      out := Reorganise(target, cut);
    }

    /** Finishes any pending reorganisation, then moves to `target` if it is strictly heavier. */
    method Activate(target: Id, cut: Cut) returns (out: Outcome)
      requires Valid()
      modifies this
      ensures Valid() && blocks == old(blocks) && deltas == old(deltas) && snapshots == old(snapshots)
      ensures tip in blocks && old(tip) in blocks
      ensures (tip == old(tip) || blocks[tip].chainwork > blocks[old(tip)].chainwork)
      ensures out.Refused? ==> target !in blocks && out.code == UnknownBlock
      ensures cut.None? ==> !out.Stopped? && (target in blocks ==> out.Active?)
      ensures out.Active? ==> target in blocks && out.tip == tip && !Pending()
                              && tip == Heavier(blocks, old(Settled()), target)
      ensures !out.Refused? ==> Settled() == old(Settled()) || (target in blocks && Settled() == target)
      ensures Pending() ==> tip == old(tip) || tip == old(Settled())
    {
      var left := cut;
      if Pending() {
        out, left := RecoverIntent(cut);
        if out.Stopped? { return; }
      }
      if target !in blocks { return Refused(UnknownBlock); }
      out := Advance(target, left, cut.None?);
    }

    /** The tip once a pending reorganisation has been finished. */
    function Settled(): Id
      reads this
    {
      if Pending() then reorg.value.newTip else tip
    }

    /** The first block by most work, then least height, then least id. */
    method HeaviestBlock() returns (best: Id)
      requires Valid()
      ensures best in blocks && forall b :: b in blocks ==> Preferred(blocks, best, b)
    {
      best := tip;
      var todo := blocks.Keys;
      while todo != {}
        invariant todo <= blocks.Keys && best in blocks
        invariant forall b :: b in blocks && b !in todo ==> Preferred(blocks, best, b)
      {
        var b :| b in todo;
        if !Preferred(blocks, best, b) { best := b; }
        todo := todo - {b};
      }
    }

    /** Restart: finish the intent, then take the heaviest block if it beats the tip. */
    method Recover(cut: Cut) returns (out: Outcome)
      requires Valid()
      modifies this
      ensures Valid() && !out.Refused?
      ensures blocks == old(blocks) && deltas == old(deltas) && snapshots == old(snapshots)
      ensures tip in blocks && old(tip) in blocks
      ensures (tip == old(tip) || blocks[tip].chainwork > blocks[old(tip)].chainwork)
      ensures cut.None? ==> out.Active?
      ensures out.Active? ==> out.tip == tip && !Pending() && forall b :: b in blocks ==>
                blocks[b].chainwork <= blocks[tip].chainwork
      ensures out.Active? && tip != old(Settled()) ==> forall b :: b in blocks ==> Preferred(blocks, tip, b)
    {
      var left;
      out, left := RecoverIntent(cut);
      if out.Stopped? { return; }
      var best := HeaviestBlock();
      if blocks[best].chainwork > blocks[tip].chainwork {
        out := Activate(best, left);
      }
    }

    /** The state of any admitted block, from the live slot or the nearest retained snapshot and the deltas above it. */
    method StateAt(id: Id) returns (s: State, ok: bool)
      requires Valid() && id in blocks
      ensures ok && s == Replay(rules, blocks, id)
    {
      if id == tip {
        s, ok := ReadActive();
        return;
      }
      var cur, ancestry := NearestSnapshot(id);
      s := snapshots[cur];
      assert SnapshotOk(rules, blocks, snapshots, cur);
      assert BlockOk(rules, blocks, deltas, cur);
      if rules.root(s) != blocks[cur].root { return s, false; }
      s, ok := Climb(id, cur, ancestry, s);
    }

    /** Replays the deltas of a walk, lowest block first. */
    method Climb(id: Id, cur: Id, ancestry: seq<Id>, start: State) returns (s: State, ok: bool)
      requires Valid() && cur in blocks && Ancestry(rules, blocks, id, ancestry, cur)
      requires start == Replay(rules, blocks, cur)
      ensures ok && id in blocks && s == Replay(rules, blocks, id)
    {
      s := start;
      var i := |ancestry|;
      while i > 0
        invariant 0 <= i <= |ancestry| && At(ancestry, cur, i) in blocks
        invariant s == Replay(rules, blocks, At(ancestry, cur, i))
      {
        i := i - 1;
        assert Edge(rules, blocks, ancestry[i], At(ancestry, cur, i + 1));
        s, ok := ReplayOne(ancestry[i], At(ancestry, cur, i + 1), s);
        if !ok { return; }
      }
      ok := true;
    }

    /** Walks down to a block whose snapshot was retained; genesis always is. */
    method NearestSnapshot(id: Id) returns (cur: Id, ancestry: seq<Id>)
      requires Valid() && id in blocks
      ensures cur in blocks && cur in snapshots && Ancestry(rules, blocks, id, ancestry, cur)
    {
      cur, ancestry := id, [];
      while cur !in snapshots
        invariant cur in blocks && Ancestry(rules, blocks, id, ancestry, cur)
        decreases blocks[cur].height
      {
        ParentFacts(rules, blocks, cur);
        ancestry := ancestry + [cur];
        cur := Parent(rules, blocks, cur);
      }
    }

    /** One delta forward, with both of its checks. */
    method ReplayOne(b: Id, ghost parent: Id, s: State) returns (t: State, ok: bool)
      requires Valid() && parent in blocks && Edge(rules, blocks, b, parent) && s == Replay(rules, blocks, parent)
      ensures ok && t == Replay(rules, blocks, b)
    {
      StepState(rules, blocks, deltas, s, Attach(b), parent, s);
      t, ok := Forward(b, s);
      StepState(rules, blocks, deltas, s, Attach(b), parent, t);
      assert BlockOk(rules, blocks, deltas, b);
      ok := ok && rules.root(t) == blocks[b].root;
    }

    /** The most recent headers of a branch, newest first, at least as many as retargeting and the median need. */
    method AncestorHeaders(parent: Id) returns (headers: seq<Header>)
      requires Valid() && parent in blocks
      ensures RecentHeaders(rules.params, Chain(rules, blocks, parent), headers)
    {
      var cur := parent;
      ghost var chain := Chain(rules, blocks, parent);
      var limit := Max(rules.params.interval, rules.params.medianWidth);
      headers := [];
      ChainLength(rules, blocks, parent);
      while cur != rules.genesis && |headers| < limit
        invariant cur in blocks && |headers| + blocks[cur].height + 1 == |chain|
        invariant chain[..blocks[cur].height + 1] == Chain(rules, blocks, cur)
        invariant forall i :: 0 <= i < |headers| ==> headers[i] == chain[|chain| - 1 - i]
        decreases blocks[cur].height
      {
        ParentFacts(rules, blocks, cur);
        ChainLength(rules, blocks, Parent(rules, blocks, cur));
        ghost var n := blocks[cur].height;
        assert chain[..n + 1][n] == blocks[cur].header && chain[..n + 1][..n] == chain[..n];
        headers := headers + [blocks[cur].header];
        cur := Parent(rules, blocks, cur);
      }
      ParentFacts(rules, blocks, cur);
      if cur == rules.genesis {
        assert chain[..1][0] == blocks[cur].header;
        headers := headers + [blocks[cur].header];
      }
    }

    /** The target the next block on `parent` must carry. */
    method Target(parent: Id) returns (t: nat)
      requires Valid() && parent in blocks
      ensures Some(t) == NextTarget(rules.params, Chain(rules, blocks, parent))
      ensures 1 <= t <= rules.params.powLimit
    {
      ChainLength(rules, blocks, parent);
      assert BlockOk(rules, blocks, deltas, parent);
      var headers := AncestorHeaders(parent);
      RecentTarget(rules.params, Chain(rules, blocks, parent), headers);
      var next := TargetOf(rules.params, headers, blocks[parent].height + 1);
      t := next.value;
    }

    /** Target and time checks of admission, in the source's order. */
    method CheckHeader(parent: Id, h: Header, now: nat) returns (refusal: Option<Code>)
      requires Valid() && parent in blocks
      ensures Chain(rules, blocks, parent) != []
      ensures (refusal.None? <==> HeaderDue(rules.params, Chain(rules, blocks, parent), h, now))
      ensures refusal.None? ==> Admitted(rules.params, Chain(rules, blocks, parent) + [h])
      ensures refusal.Some? ==> refusal.value in {TargetMismatch, TimeDeferred, TimeInvalid}
    {
      ChainLength(rules, blocks, parent);
      var t := Target(parent);
      if h.target != t { return Some(TargetMismatch); }
      var headers := AncestorHeaders(parent);
      RecentTimes(rules.params, Chain(rules, blocks, parent), headers);
      var ancestors := Reversed(Stamps(headers[..Min(|headers|, rules.params.medianWidth)]));
      var timing := TimestampState(h.timestamp, ancestors, now, rules.params.futureSkew);
      if timing == DeferredFuture { return Some(TimeDeferred); }
      if timing != Admissible { return Some(TimeInvalid); }
      assert BlockOk(rules, blocks, deltas, parent);
      AdmittedSnoc(rules.params, Chain(rules, blocks, parent), h);
      return None;
    }

    /** What admission demands of a candidate: a known block repeated exactly, or a valid child of a known block. */
    ghost predicate Welcome(c: Candidate, now: nat)
      requires Valid()
      reads this
    {
      if c.id in blocks then blocks[c.id].header == c.header && blocks[c.id].body == c.body
      else
        && c.parent in blocks && c.height == blocks[c.parent].height + 1
        && var chain, prior := Chain(rules, blocks, c.parent), Replay(rules, blocks, c.parent);
        && chain != [] && HeaderDue(rules.params, chain, c.header, now) && evidence(prior, c)
        && var executed := rules.exec(prior, c.body, c.height, c.parent);
        && executed.Some? && c.root == rules.root(executed.value)
        && 1 <= c.header.target < POW256 && blocks[c.parent].chainwork + Work(c.header.target) < POW256 * POW256
    }

    /**
     Validates a candidate on its parent's state and stores it with its delta, adding a
     snapshot every 128 blocks and keeping the genesis one and the 64 highest.
     */
    method Admit(c: Candidate, now: nat) returns (out: Outcome)
      requires Valid()
      modifies this`blocks, this`deltas, this`snapshots
      ensures Valid()
      ensures Pending() ==> out == Refused(ReorgInProgress)
      ensures out.Active? <==> !old(Pending()) && old(Welcome(c, now))
      ensures out.Refused? || c.id in old(blocks) ==>
                blocks == old(blocks) && deltas == old(deltas) && snapshots == old(snapshots)
      ensures out.Active? ==>
                out.tip == c.id && c.id in blocks && blocks[c.id].header == c.header && blocks[c.id].body == c.body
      ensures out.Active? && c.id !in old(blocks) ==>
                blocks == old(blocks)[c.id := blocks[c.id]] && blocks[c.id].parent == Some(c.parent)
      ensures !out.Stopped?
    {
      if Pending() { return Refused(ReorgInProgress); }
      if c.id in blocks {
        if blocks[c.id].header == c.header && blocks[c.id].body == c.body { return Active(c.id); }
        return Refused(DuplicateContent);
      }
      if c.parent !in blocks { return Refused(UnknownBlock); }
      if c.height != blocks[c.parent].height + 1 { return Refused(HeightMismatch); }
      var refusal := CheckHeader(c.parent, c.header, now);
      if refusal.Some? { return Refused(refusal.value); }
      var prior, ok := StateAt(c.parent);
      if !evidence(prior, c) { return Refused(Evidence); }
      var executed := rules.exec(prior, c.body, c.height, c.parent);
      if executed.None? { return Refused(Execution); }
      if c.root != rules.root(executed.value) { return Refused(RootMismatch); }
      out := Insert(c, prior, executed.value);
    }

    /** Adds a validated candidate, unless its branch's work no longer fits its field. */
    method Insert(c: Candidate, prior: State, state: State) returns (out: Outcome)
      requires Valid() && !Pending() && c.id !in blocks && c.parent in blocks && c.height == blocks[c.parent].height + 1
      requires prior == Replay(rules, blocks, c.parent) && c.root == rules.root(state)
      requires rules.exec(prior, c.body, c.height, c.parent) == Some(state)
      requires Admitted(rules.params, Chain(rules, blocks, c.parent) + [c.header])
      modifies this`blocks, this`deltas, this`snapshots
      ensures Valid() && 1 <= c.header.target < POW256
      ensures out == if old(blocks)[c.parent].chainwork + Work(c.header.target) < POW256 * POW256
                     then Active(c.id) else Refused(WorkLimit)
      ensures out.Refused? ==> blocks == old(blocks) && deltas == old(deltas) && snapshots == old(snapshots)
      ensures out.Active? ==> c.id in blocks && blocks == old(blocks)[c.id := blocks[c.id]]
      ensures out.Active? ==> blocks[c.id].parent == Some(c.parent) && blocks[c.id].header == c.header
                              && blocks[c.id].body == c.body
    {
      HeaderTargetInRange(rules.params, Chain(rules, blocks, c.parent), c.header);
      var work := blocks[c.parent].chainwork + Work(c.header.target);
      if work >= POW256 * POW256 { return Refused(WorkLimit); }
      var b := Block(Some(c.parent), c.height, work, c.header, c.body, c.root);
      GrowTree(rules, blocks, c.id, b);
      Store(c.id, b, prior, state);
      out := Active(c.id);
    }

    /** The insertion transaction. */
    method Store(id: Id, b: Block, prior: State, state: State)
      requires Valid() && !Pending() && id !in blocks && b.parent.Some? && b.parent.value in blocks
      requires Grows(rules, blocks, id, b, blocks[id := b])
      requires b.height == blocks[b.parent.value].height + 1 && b.root == rules.root(state)
      requires prior == Replay(rules, blocks, b.parent.value)
      requires rules.exec(prior, b.body, b.height, b.parent.value) == Some(state)
      requires Admitted(rules.params, Chain(rules, blocks, b.parent.value) + [b.header])
      requires 1 <= b.header.target < POW256 && b.chainwork == blocks[b.parent.value].chainwork + Work(b.header.target)
      modifies this`blocks, this`deltas, this`snapshots
      ensures Valid() && blocks == old(blocks)[id := b] && deltas == old(deltas)[id := Diff(prior, state)]
    {
      ghost var next := blocks[id := b];
      StoreLeaf(rules, blocks, deltas, id, b, prior, state);
      GrowSnapshots(rules, blocks, id, b, next, snapshots);
      GrowKeeps(rules, blocks, id, b, next, tip);
      GrowLeads(rules, blocks, id, b, next, rules.genesis, Flat(events), tip);
      LeafReplay(rules, blocks, id, b, next, state);
      blocks, deltas := blocks[id := b], deltas[id := Diff(prior, state)];
      if b.height % SNAPSHOT_INTERVAL == 0 {
        PruneKeeps(rules, blocks, snapshots, id, state);
        snapshots := Pruned(rules, blocks, snapshots[id := state]);
      }
    }

    /** Replays one block's delta on a private state, checking every value it replaces. */
    method Forward(id: Id, s: State) returns (t: State, ok: bool)
      requires id in deltas
      ensures ok <==> Applies(s, deltas[id], false)
      ensures ok ==> Patched(s, t, deltas[id], false)
    {
      var d := deltas[id];
      var todo := d.Keys;
      t := s;
      while todo != {}
        invariant todo <= d.Keys
        invariant forall k :: k in d && k !in todo ==> Get(s, k) == Expected(d, k, false)
        invariant forall k :: Get(t, k) == if k in d && k !in todo then New(d, k, false) else Get(s, k)
      {
        var k :| k in todo;
        if Get(t, k) != Expected(d, k, false) { return t, false; }
        t := Set(t, k, New(d, k, false));
        todo := todo - {k};
      }
      ok := true;
    }
  }

  /** How many snapshots precede x by height descending, then id. */
  function Rank(blocks: Blocks, all: set<Id>, x: Id): nat
  {
    |set y | y in all && y in blocks && x in blocks
             && (blocks[y].height > blocks[x].height || (blocks[y].height == blocks[x].height && y < x))|
  }

  /** Genesis and the highest snapshots stay. */
  function Pruned(r: Rules, blocks: Blocks, all: map<Id, State>): map<Id, State>
  {
    map x | x in all && (x == r.genesis || Rank(blocks, all.Keys, x) < RETAINED_SNAPSHOTS) :: all[x]
  }

  lemma {:induction false} PruneKeeps(r: Rules, blocks: Blocks, snapshots: map<Id, State>, id: Id, state: State)
    requires Tree(r, blocks) && SnapshotsOk(r, blocks, snapshots) && id in blocks && state == Replay(r, blocks, id)
    ensures SnapshotsOk(r, blocks, Pruned(r, blocks, snapshots[id := state]))
  {
    var kept := Pruned(r, blocks, snapshots[id := state]);
    forall x | x in kept ensures SnapshotOk(r, blocks, kept, x) {
      if x != id { assert SnapshotOk(r, blocks, snapshots, x); }
    }
  }

  lemma {:induction false} LeafReplay(r: Rules, blocks: Blocks, id: Id, b: Block, next: Blocks, state: State)
    requires Grows(r, blocks, id, b, next) && b.parent.Some? && b.parent.value in blocks
    requires r.exec(Replay(r, blocks, b.parent.value), b.body, b.height, b.parent.value) == Some(state)
    ensures Replay(r, next, id) == state
    ensures Chain(r, next, id) == Chain(r, blocks, b.parent.value) + [b.header]
  {
    ParentFacts(r, next, id);
    GrowKeeps(r, blocks, id, b, next, b.parent.value);
  }

  /** Storing a leaf that executed on its parent's state keeps every row of the store right. */
  lemma {:induction false} StoreLeaf(r: Rules, blocks: Blocks, deltas: map<Id, Delta>, id: Id, b: Block, prior: State,
                                     state: State)
    requires StoreOk(r, blocks, deltas) && Grows(r, blocks, id, b, blocks[id := b]) && b.parent.Some?
    requires b.parent.value in blocks
    requires b.root == r.root(state) && prior == Replay(r, blocks, b.parent.value)
    requires r.exec(prior, b.body, b.height, b.parent.value) == Some(state)
    requires Admitted(r.params, Chain(r, blocks, b.parent.value) + [b.header])
    requires 1 <= b.header.target < POW256 && b.chainwork == blocks[b.parent.value].chainwork + Work(b.header.target)
    ensures StoreOk(r, blocks[id := b], deltas[id := Diff(prior, state)])
  {
    var next, more := blocks[id := b], deltas[id := Diff(prior, state)];
    LeafBlockOk(r, blocks, next, more, id, b, prior, state);
    forall x | x in next ensures BlockOk(r, next, more, x) {
      if x != id {
        assert BlockOk(r, blocks, deltas, x);
        GrowBlockOk(r, blocks, deltas, id, b, next, Diff(prior, state), x);
      }
    }
  }

  /** The new leaf's own row. */
  lemma {:induction false} LeafBlockOk(r: Rules, blocks: Blocks, next: Blocks, more: map<Id, Delta>, id: Id, b: Block,
                                       prior: State, state: State)
    requires r.params.Valid() && Grows(r, blocks, id, b, next) && b.parent.Some? && b.parent.value in blocks
    requires b.root == r.root(state) && prior == Replay(r, blocks, b.parent.value)
    requires r.exec(prior, b.body, b.height, b.parent.value) == Some(state) && id in more
    requires more[id] == Diff(prior, state)
    requires Admitted(r.params, Chain(r, blocks, b.parent.value) + [b.header])
    requires 1 <= b.header.target < POW256 && b.chainwork == blocks[b.parent.value].chainwork + Work(b.header.target)
    ensures BlockOk(r, next, more, id)
  {
    LeafReplay(r, blocks, id, b, next, state);
    GrowKeeps(r, blocks, id, b, next, b.parent.value);
    ParentFacts(r, next, id);
    assert EdgeOk(r, next, more, id);
  }

  lemma {:induction false} HeaderTargetInRange(p: Params, chain: seq<Header>, h: Header)
    requires p.Valid() && Admitted(p, chain + [h])
    ensures 1 <= h.target <= p.powLimit
  {
    TargetInRange(p, chain + [h], |chain| + 1, |chain|);
  }

  function TargetOf(p: Params, headers: seq<Header>, height: nat): Option<int>
    requires headers != []
  {
    if p.interval > 0 && height % p.interval == 0 && |headers| >= p.interval then
      Retarget(headers[0].target, headers[p.interval - 1].timestamp, headers[0].timestamp, p.interval, p.spacing,
               p.powLimit)
    else Some(headers[0].target)
  }

  /** The retained headers are enough to compute the next target. */
  lemma {:induction false} RecentTarget(p: Params, chain: seq<Header>, headers: seq<Header>)
    requires p.Valid() && Admitted(p, chain) && RecentHeaders(p, chain, headers)
    ensures headers != [] && TargetOf(p, headers, |chain|) == NextTarget(p, chain)
    ensures NextTarget(p, chain).Some? && 1 <= NextTarget(p, chain).value <= p.powLimit
  {
    TargetInRange(p, chain, |chain|, |chain| - 1);
    TargetStep(p, chain);
    if |chain| % p.interval == 0 { MultipleAtLeast(|chain|, p.interval); }
  }

  function Stamps(headers: seq<Header>): (t: seq<int>)
    ensures |t| == |headers| && forall i :: 0 <= i < |t| ==> t[i] == headers[i].timestamp
  {
    seq(|headers|, i requires 0 <= i < |headers| => headers[i].timestamp)
  }

  function Reversed(s: seq<int>): (t: seq<int>)
    ensures |t| == |s| && forall i :: 0 <= i < |t| ==> t[i] == s[|s| - 1 - i]
  {
    seq(|s|, i requires 0 <= i < |s| => s[|s| - 1 - i])
  }

  lemma {:induction false} TimesAt(chain: seq<Header>, i: nat)
    requires i < |chain|
    ensures Times(chain)[i] == chain[i].timestamp
  {
    if i < |chain| - 1 { TimesAt(chain[..|chain| - 1], i); }
  }

  /** The retained headers give admission the same median window as the whole chain. */
  lemma {:induction false} RecentTimes(p: Params, chain: seq<Header>, headers: seq<Header>)
    requires p.Valid() && chain != [] && RecentHeaders(p, chain, headers)
    ensures var ancestors := Reversed(Stamps(headers[..Min(|headers|, p.medianWidth)]));
            Last(ancestors, MEDIAN_WIDTH) == Last(Times(chain), EffectiveWidth(p)) && ancestors != []
  {
    RecentStamps(p, chain, headers, Min(|headers|, p.medianWidth));
    SuffixLast(Reversed(Stamps(headers[..Min(|headers|, p.medianWidth)])), Times(chain), p.medianWidth);
  }

  lemma {:induction false} StampAt(chain: seq<Header>, recent: seq<Header>, i: nat)
    requires i < |recent| <= |chain| && recent[|recent| - 1 - i] == chain[|chain| - |recent| + i]
    ensures Reversed(Stamps(recent))[i] == Times(chain)[|chain| - |recent| + i]
  {
    TimesAt(chain, |chain| - |recent| + i);
  }

  /** Newest-first headers, reversed, are the end of the chain's timestamps. */
  lemma {:induction false} RecentStamps(p: Params, chain: seq<Header>, headers: seq<Header>, n: nat)
    requires RecentHeaders(p, chain, headers) && n <= |headers|
    ensures Reversed(Stamps(headers[..n])) == Times(chain)[|chain| - n..]
  {
    var recent, times := Reversed(Stamps(headers[..n])), Times(chain)[|chain| - n..];
    forall i | 0 <= i < n ensures recent[i] == times[i] {
      assert headers[n - 1 - i] == chain[|chain| - 1 - (n - 1 - i)];
      StampAt(chain, headers[..n], i);
    }
  }

  lemma {:induction false} SuffixLast(a: seq<int>, t: seq<int>, width: nat)
    requires |a| <= |t| && a == t[|t| - |a|..] && (|a| == |t| || |a| == width) && |a| <= width
    ensures Last(a, MEDIAN_WIDTH) == Last(t, Min(width, MEDIAN_WIDTH))
  {
  }

  /** The prescribed target, a time after the median and not too far in the future. */
  ghost predicate HeaderDue(p: Params, chain: seq<Header>, h: Header, now: nat)
    requires p.Valid() && chain != []
  {
    NextTarget(p, chain) == Some(h.target) && MedianTimePast(p, chain) < h.timestamp <= now + p.futureSkew
  }

  lemma {:induction false} AdmittedSnoc(p: Params, chain: seq<Header>, h: Header)
    requires p.Valid() && Admitted(p, chain)
    requires NextTarget(p, chain) == Some(h.target) && h.timestamp > MedianTimePast(p, chain)
    ensures Admitted(p, chain + [h])
  {
    TimesSnoc(p, chain, h);
    TargetsSnoc(p, chain, h);
    assert (chain + [h])[0] == chain[0] && |chain + [h]| == |chain| + 1;
  }

  lemma {:induction false} TimesSnoc(p: Params, chain: seq<Header>, h: Header)
    requires p.Valid() && chain != [] && TimesAdmitted(p, chain, |chain|) && h.timestamp > MedianTimePast(p, chain)
    ensures TimesAdmitted(p, chain + [h], |chain| + 1)
  {
    TimesPrefix(p, chain, h, |chain|);
    assert (chain + [h])[..|chain|] == chain;
  }

  lemma {:induction false} TargetsSnoc(p: Params, chain: seq<Header>, h: Header)
    requires chain != [] && TargetsAdmitted(p, chain, |chain|) && NextTarget(p, chain) == Some(h.target)
    ensures TargetsAdmitted(p, chain + [h], |chain| + 1)
  {
    TargetsPrefix(p, chain, h, |chain|);
    assert (chain + [h])[..|chain|] == chain;
  }

  lemma {:induction false} TimesPrefix(p: Params, chain: seq<Header>, h: Header, n: nat)
    requires p.Valid() && n <= |chain| && TimesAdmitted(p, chain, n)
    ensures TimesAdmitted(p, chain + [h], n)
  {
    if n > 1 {
      TimesPrefix(p, chain, h, n - 1);
      assert (chain + [h])[..n - 1] == chain[..n - 1];
    }
  }

  lemma {:induction false} TargetsPrefix(p: Params, chain: seq<Header>, h: Header, n: nat)
    requires n <= |chain| && TargetsAdmitted(p, chain, n)
    ensures TargetsAdmitted(p, chain + [h], n)
  {
    if n > 1 {
      TargetsPrefix(p, chain, h, n - 1);
      assert (chain + [h])[..n - 1] == chain[..n - 1];
    }
  }

  lemma {:induction false} MultipleAtLeast(h: nat, n: nat)
    requires n > 0 && h > 0 && h % n == 0
    ensures h >= n
  {
  }

  /** Newest first, from the end of the chain, as many as the chain has or as admission looks at. */
  ghost predicate RecentHeaders(p: Params, chain: seq<Header>, headers: seq<Header>)
  {
    && Min(|chain|, Max(p.interval, p.medianWidth)) <= |headers| <= |chain|
    && forall i :: 0 <= i < |headers| ==> headers[i] == chain[|chain| - 1 - i]
  }

  ghost predicate Edge(r: Rules, blocks: Blocks, child: Id, parent: Id)
  {
    child in blocks && child != r.genesis && parent in blocks && Parent(r, blocks, child) == parent
  }

  /** The i-th block of the walk, or where the walk ended. */
  function At(ancestry: seq<Id>, cur: Id, i: nat): Id
    requires i <= |ancestry|
  {
    if i == |ancestry| then cur else ancestry[i]
  }

  /** A walk from id up to cur, child first. */
  ghost predicate Ancestry(r: Rules, blocks: Blocks, id: Id, ancestry: seq<Id>, cur: Id)
  {
    At(ancestry, cur, 0) == id
    && forall i :: 0 <= i < |ancestry| ==> Edge(r, blocks, ancestry[i], At(ancestry, cur, i + 1))
  }

  /** Where the next staged step leads. */
  ghost function StepTarget(r: Rules, blocks: Blocks, i: Intent, cursor: Id): (there: Id)
    requires Tree(r, blocks) && i.newTip in blocks && i.position < |i.steps| && cursor in blocks
    requires Leads(r, blocks, i.oldTip, i.steps[..i.position], cursor)
    requires Leads(r, blocks, cursor, i.steps[i.position..], i.newTip)
    ensures there in blocks
    ensures Leads(r, blocks, cursor, [i.steps[i.position]], there)
    ensures Leads(r, blocks, i.oldTip, i.steps[..i.position + 1], there)
    ensures Leads(r, blocks, there, i.steps[i.position + 1..], i.newTip)
  {
    var step := i.steps[i.position];
    var there := if step.Detach? then Parent(r, blocks, cursor) else step.block;
    ParentFacts(r, blocks, cursor);
    assert i.steps[i.position..][0] == step && i.steps[i.position..][1..] == i.steps[i.position + 1..];
    assert Leads(r, blocks, cursor, [step], there);
    assert i.steps[..i.position + 1] == i.steps[..i.position] + [step];
    LeadsConcat(r, blocks, i.oldTip, i.steps[..i.position], cursor, [step], there);
    there
  }

  /** On a state equal to the cursor's, the step's delta always applies and gives the next block's state. */
  lemma {:induction false} StepState(r: Rules, blocks: Blocks, deltas: map<Id, Delta>, s: State, step: Step, cursor: Id,
                                     t: State)
    requires StoreOk(r, blocks, deltas) && cursor in blocks && s == Replay(r, blocks, cursor)
    requires Leads(r, blocks, cursor, [step], if step.Detach? then Parent(r, blocks, cursor) else step.block)
    ensures step.block in deltas && Applies(s, deltas[step.block], step.Detach?)
    ensures Patched(s, t, deltas[step.block], step.Detach?) ==>
              (if step.Detach? then Parent(r, blocks, cursor) else step.block) in blocks
              && t == Replay(r, blocks, if step.Detach? then Parent(r, blocks, cursor) else step.block)
  {
    var b := step.block;
    assert b in blocks && b != r.genesis;
    ParentFacts(r, blocks, b);
    assert BlockOk(r, blocks, deltas, b);
    DiffRoundTrip(Replay(r, blocks, Parent(r, blocks, b)), Replay(r, blocks, b), t);
  }

  // ---------- whole runs ----------

  datatype Op =
    | DoAdmit(candidate: Candidate, now: nat)
    | DoActivate(target: Id, cut: Cut)
    | DoRecover(cut: Cut)
    | DoRead
    | DoStateAt(id: Id)

  /** What a read answered: a block and its state. */
  datatype Answer = Answer(id: Id, state: State)

  /** Blocks are only ever added. */
  ghost predicate Contains(next: Blocks, blocks: Blocks)
  {
    forall x :: x in blocks ==> x in next && next[x] == blocks[x]
  }

  lemma {:induction false} ContainsReplay(r: Rules, blocks: Blocks, next: Blocks, x: Id)
    requires Tree(r, blocks) && Tree(r, next) && Contains(next, blocks) && x in blocks
    ensures Replay(r, next, x) == Replay(r, blocks, x)
    decreases blocks[x].height
  {
    ParentFacts(r, blocks, x);
    ParentFacts(r, next, x);
    if x != r.genesis { ContainsReplay(r, blocks, next, Parent(r, blocks, x)); }
  }

  ghost predicate Right(r: Rules, blocks: Blocks, a: Answer)
    requires Tree(r, blocks)
  {
    a.id in blocks && a.state == Replay(r, blocks, a.id)
  }

  /** What readers can see of the ledger. */
  datatype View = View(blocks: Blocks, tip: Id)

  /** What an operation answers: reads with the executed state of their block, the others nothing. */
  ghost function AnswerTo(r: Rules, v: View, op: Op): Option<Answer>
    requires Tree(r, v.blocks) && v.tip in v.blocks
  {
    match op
    case DoRead => Some(Answer(v.tip, Replay(r, v.blocks, v.tip)))
    case DoStateAt(id) => if id in v.blocks then Some(Answer(id, Replay(r, v.blocks, id))) else None
    case _ => None
  }

  ghost function ViewOf(ledger: Ledger): View
    reads ledger
  {
    View(ledger.blocks, ledger.tip)
  }

  /** What one operation does to a view: blocks are only added, the tip never loses work, reads change nothing. */
  ghost predicate Moves(r: Rules, v: View, op: Op, w: View)
  {
    && Tree(r, v.blocks) && Tree(r, w.blocks) && v.tip in v.blocks && w.tip in w.blocks && Contains(w.blocks, v.blocks)
    && w.blocks[w.tip].chainwork >= v.blocks[v.tip].chainwork && (op.DoRead? || op.DoStateAt? ==> w == v)
  }

  /** One operation; reads change nothing and answer with executed states. */
  method Perform(ledger: Ledger, op: Op) returns (answer: Option<Answer>)
    requires ledger.Valid()
    modifies ledger
    ensures ledger.Valid() && Moves(ledger.rules, old(ViewOf(ledger)), op, ViewOf(ledger))
    ensures answer == AnswerTo(ledger.rules, old(ViewOf(ledger)), op)
  {
    answer := None;
    match op {
      case DoAdmit(c, now) => var _ := ledger.Admit(c, now);
      case DoActivate(t, cut) => var _ := ledger.Activate(t, cut);
      case DoRecover(cut) => var _ := ledger.Recover(cut);
      case DoRead => {
        var s, ok := ledger.ReadActive();
        answer := Some(Answer(ledger.tip, s));
      }
      case DoStateAt(id) => {
        if id in ledger.blocks {
          var s, ok := ledger.StateAt(id);
          answer := Some(Answer(id, s));
        }
      }
    }
  }

  /** The views of a run, and one answer for each operation. */
  ghost predicate Answered(r: Rules, trace: seq<View>, ops: seq<Op>, answers: seq<Option<Answer>>)
  {
    && |trace| == |ops| + 1 && |answers| == |ops|
    && forall i :: 0 <= i < |ops| ==> AnsweredAt(r, trace[i], ops[i], trace[i + 1], answers[i])
  }

  ghost predicate AnsweredAt(r: Rules, v: View, op: Op, w: View, answer: Option<Answer>)
  {
    Moves(r, v, op, w) && answer == AnswerTo(r, v, op)
  }

  lemma {:induction false} AnsweredNext(r: Rules, trace: seq<View>, ops: seq<Op>, i: nat,
                                        answers: seq<Option<Answer>>, w: View, answer: Option<Answer>)
    requires i < |ops| && Answered(r, trace, ops[..i], answers) && AnsweredAt(r, trace[i], ops[i], w, answer)
    ensures Answered(r, trace + [w], ops[..i + 1], answers + [answer])
  {
    var longer, more := trace + [w], answers + [answer];
    forall k | 0 <= k < i + 1 ensures AnsweredAt(r, longer[k], ops[..i + 1][k], longer[k + 1], more[k]) {
      if k < i { assert AnsweredAt(r, trace[k], ops[..i][k], trace[k + 1], answers[k]); }
    }
  }

  /** Between any two points of a run blocks are only added, and the tip never loses work. */
  lemma {:induction false} ViewsGrow(r: Rules, trace: seq<View>, ops: seq<Op>, answers: seq<Option<Answer>>, i: nat,
                                     j: nat)
    requires Answered(r, trace, ops, answers) && i <= j < |trace| && Tree(r, trace[0].blocks)
    requires trace[0].tip in trace[0].blocks
    ensures Tree(r, trace[i].blocks) && Tree(r, trace[j].blocks) && Contains(trace[j].blocks, trace[i].blocks)
    ensures trace[i].tip in trace[i].blocks && trace[j].tip in trace[j].blocks
    ensures trace[j].blocks[trace[j].tip].chainwork >= trace[i].blocks[trace[i].tip].chainwork
  {
    if i == j {
      if i > 0 { assert AnsweredAt(r, trace[i - 1], ops[i - 1], trace[i], answers[i - 1]); }
    } else {
      ViewsGrow(r, trace, ops, answers, i, j - 1);
      assert AnsweredAt(r, trace[j - 1], ops[j - 1], trace[j], answers[j - 1]);
    }
  }

  /** A state once read is the execution of its block's branch at every later point. */
  lemma {:induction false} AnswerStays(r: Rules, trace: seq<View>, ops: seq<Op>, answers: seq<Option<Answer>>, i: nat,
                                       j: nat)
    requires Answered(r, trace, ops, answers) && i < j < |trace| && answers[i].Some?
    ensures Tree(r, trace[j].blocks) && Right(r, trace[j].blocks, answers[i].value)
  {
    assert AnsweredAt(r, trace[0], ops[0], trace[1], answers[0]);
    assert AnsweredAt(r, trace[i], ops[i], trace[i + 1], answers[i]);
    ViewsGrow(r, trace, ops, answers, i, j);
    ContainsReplay(r, trace[i].blocks, trace[j].blocks, answers[i].value.id);
  }

  /**
   Any sequence of admissions, activations, recoveries and reads, each stopped at any point: the
   live slot always is the execution of the whole branch to the active tip, the event log is
   a walk from genesis to it, and the tip never loses work.  Every read is answered with the
   execution of its block's branch, and that answer stays right.
   */
  method Run(ledger: Ledger, ops: seq<Op>) returns (answers: seq<Option<Answer>>, ghost trace: seq<View>)
    requires ledger.Valid()
    modifies ledger
    ensures ledger.Valid()
    ensures ledger.kv[ledger.slot] == Replay(ledger.rules, ledger.blocks, ledger.tip)
    ensures Leads(ledger.rules, ledger.blocks, ledger.rules.genesis, Flat(ledger.events), ledger.tip)
    ensures Answered(ledger.rules, trace, ops, answers)
    ensures trace[0] == old(ViewOf(ledger)) && trace[|ops|] == ViewOf(ledger)
    ensures old(ledger.tip) in ledger.blocks
    ensures ledger.blocks[ledger.tip].chainwork >= ledger.blocks[old(ledger.tip)].chainwork
    ensures forall i, j :: 0 <= i < j < |trace| && answers[i].Some? ==>
              Tree(ledger.rules, trace[j].blocks) && Right(ledger.rules, trace[j].blocks, answers[i].value)
  {
    answers, trace := [], [ViewOf(ledger)];
    var i := 0;
    while i < |ops|
      invariant 0 <= i <= |ops| && ledger.Valid() && Answered(ledger.rules, trace, ops[..i], answers)
      invariant trace[0] == old(ViewOf(ledger)) && trace[i] == ViewOf(ledger)
    {
      var answer := Perform(ledger, ops[i]);
      AnsweredNext(ledger.rules, trace, ops, i, answers, ViewOf(ledger), answer);
      answers, trace, i := answers + [answer], trace + [ViewOf(ledger)], i + 1;
    }
    assert ops[..i] == ops;
    ViewsGrow(ledger.rules, trace, ops, answers, 0, |ops|);
    forall i, j | 0 <= i < j < |trace| && answers[i].Some?
      ensures Tree(ledger.rules, trace[j].blocks) && Right(ledger.rules, trace[j].blocks, answers[i].value)
    {
      AnswerStays(ledger.rules, trace, ops, answers, i, j);
    }
  }
}
