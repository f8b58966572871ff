/** The fixed pair as a state machine. Every durable step that commit, recover,
    publish_base or activate_base can take on either node is one action. An action may
    follow any other, so runs include every crash of the coordinator between two steps,
    every remote call that was not executed and every executed call whose reply was lost. */
module Pairs {
  import opened Basics
  import opened Reference
  import opened Ledgers

  datatype Pair = Pair(p: Ledger, s: Ledger)

  datatype Action =
    | Prepare(batch: Batch, capture: Capture)
    | Stage(row: nat)
    | Decide(op: Text)
    | ApplySecondary(row: nat)
    | ApplyPrimary(row: nat)
    | AbortSecondary(op: Text)
    | AbortPrimary(op: Text)
    | Confirm
    | Quarantine(generation: nat)
    | CapturePrimary(proposal: Proposal, bytes: nat)
    | CaptureSecondary(proposal: Proposal, bytes: nat)
    | ConfirmSecondary(proposal: Proposal)
    | ConfirmPrimary(proposal: Proposal)
    | ActivateSecondary(proposal: Proposal)
    | ActivatePrimary(proposal: Proposal)
    | CompactPrimary(rows: set<nat>)
    | CompactSecondary(rows: set<nat>)
    | Replace(generation: nat)

  const EMPTY: Ledger := Ledger([], None, {}, None, None, None, 0, false)

  function Fresh(primaryGeneration: nat, secondaryGeneration: nat): Pair {
    Pair(EMPTY.(generation := primaryGeneration), EMPTY.(generation := secondaryGeneration))
  }

  // ---------------------------------------------------------------- invariants

  /** Every body's recorded outcome is what executing its changes gives. */
  predicate Genuine(a: seq<Body>) {
    forall i :: 0 <= i < |a| ==> Execute(a[i].before, a[i].batch.changes) == Some(a[i].after)
  }

  /** The journals: the secondary's is a prefix of the primary's, and it has applied
      nothing that the primary could still abort. */
  predicate Journals(id: Identity, w: Pair) {
    && LedgerOk(id, w.p) && LedgerOk(id, w.s)
    && Genuine(Full(w.p))
    && Full(w.s) <= Full(w.p)
    && w.s.applied <= Committed(w.p)
    && (w.s.pending.Some? ==> w.s.pending.value.state.Prepared?)
    && !w.p.transferring && !w.s.transferring
    && Floor(w.s) <= |w.p.applied|
  }

  /** Publication slots: the primary captures first, and while its slot is captured it
      holds exactly the captured history. */
  predicate Slots(w: Pair) {
    && (w.p.publication.Some? && w.p.publication.value.phase.Captured? ==>
          w.p.pending.None? && w.p.publication.value.proposal.checkpoint.sequence == |w.p.applied|)
    && (w.s.publication.Some? ==>
          && w.p.publication.Some?
          && w.p.publication.value.proposal == w.s.publication.value.proposal
          && (w.s.publication.value.phase.Captured? ==> w.p.publication.value.phase.Captured?))
    && (w.p.publication.Some? && w.p.publication.value.phase.Confirmed? && w.s.publication.None? ==>
          w.s.generation != w.p.publication.value.proposal.secondaryGeneration)
  }

  /** Holds in every state, whatever copy the operator attaches as secondary. */
  predicate Core(id: Identity, w: Pair) {
    && Journals(id, w)
    && Slots(w)
    && (w.s.ready.Some? ==> w.s.ready.value == Current(id, w.s))
  }

  /** Holds as long as the pair keeps its two original copies: what is decided is on both
      disks, what the primary applied the secondary applied before, a base active on the
      primary is active on the secondary, and a confirmed slot is confirmed on both. */
  predicate Twin(w: Pair) {
    && Committed(w.p) <= Full(w.s)
    && w.p.applied <= w.s.applied
    && (w.p.floor.Some? ==> w.s.floor.Some? && w.p.floor.value <= w.s.floor.value)
    && (w.p.publication.Some? && w.p.publication.value.phase.Confirmed? ==> w.s.publication == w.p.publication)
  }

  // ---------------------------------------------------------------- transitions

  /** When the coordinator takes the step: the durable facts its code established before. */
  predicate Legal(id: Identity, w: Pair, a: Action) {
    match a
    case Prepare(_, _) => true
    case Stage(row) => Present(w.p, row)
    case Decide(op) => w.p.pending.Some? ==> Full(w.p) <= Full(w.s)
    case ApplySecondary(row) => Present(w.p, row) && !EntryAt(w.p, row).state.Prepared?
    case ApplyPrimary(row) => Present(w.p, row) && row <= |w.s.applied|
    case AbortSecondary(op) => PreparedAs(w.p, op)
    case AbortPrimary(op) => PreparedAs(w.p, op) && w.s.pending.None?
    case Confirm => w.p.pending.None?
    case Quarantine(g) => Unused(w, g)
    case CapturePrimary(proposal, _) => true
    case CaptureSecondary(proposal, _) => w.p.publication.Some? && w.p.publication.value.proposal == proposal
    case ConfirmSecondary(proposal) => w.p.publication.Some? && w.p.publication.value.proposal == proposal
    case ConfirmPrimary(proposal) => w.s.publication == Some(Record(proposal, Confirmed))
    case ActivateSecondary(proposal) => w.p.publication == Some(Record(proposal, Confirmed))
    case ActivatePrimary(proposal) => w.s.floor == Some(proposal.checkpoint.sequence)
    case CompactPrimary(_) => true
    case CompactSecondary(_) => true
    case Replace(g) => Unused(w, g)
  }

  /** Generations are drawn at random, so a new one differs from any the pair has recorded. */
  predicate Unused(w: Pair, g: nat) {
    w.p.publication.Some? ==> g != w.p.publication.value.proposal.secondaryGeneration
  }

  predicate PreparedAs(l: Ledger, op: Text) {
    && l.pending.Some? && l.pending.value.state.Prepared?
    && l.pending.value.body.batch.operationId == op
  }

  function Step(id: Identity, w: Pair, a: Action): Pair
    requires LedgerOk(id, w.p) && LedgerOk(id, w.s) && Legal(id, w, a)
  {
    match a
    case Prepare(batch, c) => w.(p := PrepareOn(w.p, Primary, id, batch, c).1)
    case Stage(row) => w.(s := StageOn(w.s, Secondary, id, EntryAt(w.p, row)).1)
    case Decide(op) => w.(p := DecideOn(w.p, Primary, id, op).1)
    case ApplySecondary(row) => w.(s := ApplyOn(w.s, Secondary, id, EntryAt(w.p, row)).1)
    case ApplyPrimary(row) => w.(p := ApplyOn(w.p, Primary, id, EntryAt(w.p, row)).1)
    case AbortSecondary(op) => w.(s := AbortOn(w.s, op).1)
    case AbortPrimary(op) => w.(p := AbortOn(w.p, op).1)
    case Confirm => w.(s := ConfirmCheckpointOn(w.s, Secondary, id, Current(id, w.p)).1)
    case Quarantine(g) => w.(s := QuarantineOn(w.s, Secondary, g).1)
    case CapturePrimary(proposal, bytes) => w.(p := CaptureBaseOn(w.p, Primary, id, proposal, bytes).1)
    case CaptureSecondary(proposal, bytes) => w.(s := CaptureBaseOn(w.s, Secondary, id, proposal, bytes).1)
    case ConfirmSecondary(proposal) => w.(s := ConfirmBaseOn(w.s, Secondary, id, proposal).1)
    case ConfirmPrimary(proposal) => w.(p := ConfirmBaseOn(w.p, Primary, id, proposal).1)
    case ActivateSecondary(proposal) => w.(s := ActivateOn(w.s, Secondary, id, proposal).1)
    case ActivatePrimary(proposal) => w.(p := ActivateOn(w.p, Primary, id, proposal).1)
    case CompactPrimary(rows) => w.(p := CompactOn(w.p, rows))
    case CompactSecondary(rows) => w.(s := CompactOn(w.s, rows))
    case Replace(g) => w.(s := EMPTY.(generation := g))
  }

  // ---------------------------------------------------------------- every step keeps the core

  lemma PrepareStep(id: Identity, w: Pair, a: Action)
    requires Core(id, w) && a.Prepare?
    ensures Core(id, Step(id, w, a)) && (Twin(w) ==> Twin(Step(id, w, a)))
  {
    PrepareKeeps(w.p, Primary, id, a.batch, a.capture);
    var v := Step(id, w, a);
    if v != w {
      assert Full(w.p) == w.p.applied == Committed(w.p) == Committed(v.p);
      assert Full(v.p)[..|w.p.applied|] == w.p.applied;
      forall i | 0 <= i < |Full(v.p)|
        ensures Execute(Full(v.p)[i].before, Full(v.p)[i].batch.changes) == Some(Full(v.p)[i].after)
      {
        if i < |w.p.applied| {
          assert Full(v.p)[i] == Full(w.p)[i];
        }
      }
    }
  }

  /** The secondary gains the next body of the primary's journal as its pending row. */
  lemma StagedPair(id: Identity, w: Pair, v: Pair)
    requires Core(id, w) && w.s.pending.None? && |w.s.applied| < Length(w.p)
    requires v == w.(s := w.s.(pending := Some(Pending(Full(w.p)[|w.s.applied|], Prepared)))) && LedgerOk(id, v.s)
    ensures Core(id, v) && (Twin(w) ==> Twin(v))
  {
    assert Full(w.s) == w.s.applied;
    assert Full(v.s) == Full(w.p)[..|w.s.applied| + 1];
  }

  lemma StageStep(id: Identity, w: Pair, a: Action)
    requires Core(id, w) && a.Stage? && Legal(id, w, a)
    ensures Core(id, Step(id, w, a)) && (Twin(w) ==> Twin(Step(id, w, a)))
  {
    StageKeeps(w.s, Secondary, id, EntryAt(w.p, a.row));
    if Step(id, w, a) != w {
      assert LinkOk(id, Full(w.p), a.row - 1);
      assert EntryAt(w.p, a.row).body == Full(w.p)[a.row - 1];
      StagedPair(id, w, Step(id, w, a));
    }
  }

  lemma DecideStep(id: Identity, w: Pair, a: Action)
    requires Core(id, w) && a.Decide? && Legal(id, w, a)
    ensures Core(id, Step(id, w, a)) && (Twin(w) ==> Twin(Step(id, w, a)))
  {
    DecideKeeps(w.p, Primary, id, a.op);
    var v := Step(id, w, a);
    if v != w {
      assert w.p.applied <= Committed(v.p) == Full(w.p);
    }
  }

  /** The secondary applies its pending body, which the primary has decided. */
  lemma AppliedPair(id: Identity, w: Pair, v: Pair)
    requires Core(id, w) && w.s.pending.Some? && Length(w.s) <= |Committed(w.p)|
    requires v == w.(s := Settle(w.s, Secondary, id)) && LedgerOk(id, v.s)
    requires v.s.applied == Full(w.s) && Full(v.s) == Full(w.s)
    ensures Core(id, v) && (Twin(w) ==> Twin(v))
  {
    assert v.s.applied == Full(w.p)[..Length(w.s)] == Committed(w.p)[..Length(w.s)];
  }

  lemma ApplySecondaryStep(id: Identity, w: Pair, a: Action)
    requires Core(id, w) && a.ApplySecondary? && Legal(id, w, a)
    ensures Core(id, Step(id, w, a)) && (Twin(w) ==> Twin(Step(id, w, a)))
  {
    ApplyKeeps(w.s, Secondary, id, EntryAt(w.p, a.row));
    if Step(id, w, a) != w {
      SettleKeeps(w.s, Secondary, id);
      assert LinkOk(id, Full(w.p), a.row - 1);
      assert EntryAt(w.p, a.row).body == Full(w.p)[a.row - 1];
      AppliedPair(id, w, Step(id, w, a));
    }
  }

  /** The primary applies its decided body, which the secondary has applied. */
  lemma SettledPair(id: Identity, w: Pair, v: Pair)
    requires Core(id, w) && w.p.pending.Some? && w.p.pending.value.state.Decided? && Length(w.p) <= |w.s.applied|
    requires v == w.(p := Settle(w.p, Primary, id)) && LedgerOk(id, v.p)
    requires v.p.applied == Full(w.p) && Full(v.p) == Full(w.p)
    ensures Core(id, v) && (Twin(w) ==> Twin(v))
  {
    assert Committed(v.p) == v.p.applied == Full(w.p) == Committed(w.p);
    assert w.s.applied == Full(w.p)[..|w.s.applied|];
  }

  lemma ApplyPrimaryStep(id: Identity, w: Pair, a: Action)
    requires Core(id, w) && a.ApplyPrimary? && Legal(id, w, a)
    ensures Core(id, Step(id, w, a)) && (Twin(w) ==> Twin(Step(id, w, a)))
  {
    ApplyKeeps(w.p, Primary, id, EntryAt(w.p, a.row));
    if Step(id, w, a) != w {
      SettleKeeps(w.p, Primary, id);
      assert LinkOk(id, Full(w.p), a.row - 1);
      assert EntryAt(w.p, a.row).body == Full(w.p)[a.row - 1];
      SettledPair(id, w, Step(id, w, a));
    }
  }

  lemma AbortedSecondary(id: Identity, w: Pair, v: Pair)
    requires Core(id, w) && w.p.pending.Some? && w.p.pending.value.state.Prepared?
    requires v == w.(s := w.s.(pending := None)) && LedgerOk(id, v.s)
    ensures Core(id, v) && (Twin(w) ==> Twin(v))
  {
    assert Full(v.s) == w.s.applied && Committed(w.p) == w.p.applied;
  }

  lemma AbortedPrimary(id: Identity, w: Pair, v: Pair)
    requires Core(id, w) && w.p.pending.Some? && w.p.pending.value.state.Prepared? && w.s.pending.None?
    requires v == w.(p := w.p.(pending := None)) && LedgerOk(id, v.p)
    ensures Core(id, v) && (Twin(w) ==> Twin(v))
  {
    assert Full(v.p) == w.p.applied == Committed(v.p) == Committed(w.p);
    assert Full(w.s) == w.s.applied;
    assert forall i :: 0 <= i < |w.p.applied| ==> w.p.applied[i] == Full(w.p)[i];
  }

  lemma AbortStep(id: Identity, w: Pair, a: Action)
    requires Core(id, w) && (a.AbortSecondary? || a.AbortPrimary?) && Legal(id, w, a)
    ensures Core(id, Step(id, w, a)) && (Twin(w) ==> Twin(Step(id, w, a)))
  {
    if a.AbortSecondary? {
      AbortKeeps(w.s, id, a.op);
      if Step(id, w, a) != w {
        AbortedSecondary(id, w, Step(id, w, a));
      }
    } else {
      AbortKeeps(w.p, id, a.op);
      if Step(id, w, a) != w {
        AbortedPrimary(id, w, Step(id, w, a));
      }
    }
  }

  /** Steps that touch neither journal: only markers of one node change. */
  predicate SameJournals(w: Pair, v: Pair) {
    && v.p.applied == w.p.applied && v.p.pending == w.p.pending
    && v.s.applied == w.s.applied && v.s.pending == w.s.pending
    && v.p.transferring == w.p.transferring && v.s.transferring == w.s.transferring
  }

  lemma MarkersOnly(id: Identity, w: Pair, v: Pair)
    requires Journals(id, w) && SameJournals(w, v)
    requires LedgerOk(id, v.p) && LedgerOk(id, v.s)
    requires Floor(v.s) <= |w.p.applied|
    ensures Journals(id, v)
    ensures Committed(v.p) == Committed(w.p) && Full(v.s) == Full(w.s)
  {
    assert Full(v.p) == Full(w.p);
  }

  lemma CapturePrimaryStep(id: Identity, w: Pair, a: Action)
    requires Core(id, w) && a.CapturePrimary? && Legal(id, w, a)
    ensures Core(id, Step(id, w, a)) && (Twin(w) ==> Twin(Step(id, w, a)))
  {
    CaptureBaseKeeps(w.p, Primary, id, a.proposal, a.bytes);
    MarkersOnly(id, w, Step(id, w, a));
  }

  lemma CaptureSecondaryStep(id: Identity, w: Pair, a: Action)
    requires Core(id, w) && a.CaptureSecondary? && Legal(id, w, a)
    ensures Core(id, Step(id, w, a)) && (Twin(w) ==> Twin(Step(id, w, a)))
  {
    CaptureBaseKeeps(w.s, Secondary, id, a.proposal, a.bytes);
    MarkersOnly(id, w, Step(id, w, a));
  }

  lemma ConfirmPrimaryStep(id: Identity, w: Pair, a: Action)
    requires Core(id, w) && a.ConfirmPrimary? && Legal(id, w, a)
    ensures Core(id, Step(id, w, a)) && (Twin(w) ==> Twin(Step(id, w, a)))
  {
    ConfirmBaseKeeps(w.p, Primary, id, a.proposal);
    MarkersOnly(id, w, Step(id, w, a));
  }

  lemma ConfirmSecondaryStep(id: Identity, w: Pair, a: Action)
    requires Core(id, w) && a.ConfirmSecondary? && Legal(id, w, a)
    ensures Core(id, Step(id, w, a)) && (Twin(w) ==> Twin(Step(id, w, a)))
  {
    ConfirmBaseKeeps(w.s, Secondary, id, a.proposal);
    MarkersOnly(id, w, Step(id, w, a));
  }

  lemma ActivatePrimaryStep(id: Identity, w: Pair, a: Action)
    requires Core(id, w) && a.ActivatePrimary? && Legal(id, w, a)
    ensures Core(id, Step(id, w, a)) && (Twin(w) ==> Twin(Step(id, w, a)))
  {
    ActivateKeeps(w.p, Primary, id, a.proposal);
    MarkersOnly(id, w, Step(id, w, a));
  }

  lemma ActivateSecondaryStep(id: Identity, w: Pair, a: Action)
    requires Core(id, w) && a.ActivateSecondary? && Legal(id, w, a)
    ensures Core(id, Step(id, w, a)) && (Twin(w) ==> Twin(Step(id, w, a)))
  {
    ActivateKeeps(w.s, Secondary, id, a.proposal);
    MarkersOnly(id, w, Step(id, w, a));
  }

  lemma CompactStep(id: Identity, w: Pair, a: Action)
    requires Core(id, w) && (a.CompactPrimary? || a.CompactSecondary?)
    ensures Core(id, Step(id, w, a)) && (Twin(w) ==> Twin(Step(id, w, a)))
  {
    if a.CompactPrimary? {
      CompactKeeps(w.p, id, a.rows);
    } else {
      CompactKeeps(w.s, id, a.rows);
    }
    MarkersOnly(id, w, Step(id, w, a));
  }

  lemma ReadMarkerStep(id: Identity, w: Pair, a: Action)
    requires Core(id, w) && a.Confirm? && Legal(id, w, a)
    ensures Core(id, Step(id, w, a)) && (Twin(w) ==> Twin(Step(id, w, a)))
  {
    var v := Step(id, w, a);
    assert v.s == w.s.(ready := v.s.ready);
    assert Full(v.s) == Full(w.s);
    MarkersOnly(id, w, v);
  }

  lemma QuarantineStep(id: Identity, w: Pair, a: Action)
    requires Core(id, w) && a.Quarantine? && Legal(id, w, a)
    ensures Core(id, Step(id, w, a)) && (Twin(w) ==> Twin(Step(id, w, a)))
  {
    assert Full(Step(id, w, a).s) == Full(w.s);
    MarkersOnly(id, w, Step(id, w, a));
  }

  lemma ReplaceStep(id: Identity, w: Pair, a: Action)
    requires Core(id, w) && a.Replace? && Legal(id, w, a)
    ensures Core(id, Step(id, w, a))
  {
    assert LedgerOk(id, Step(id, w, a).s);
  }

  /** Every legal step keeps the core; every step but attaching a new secondary keeps the
      stronger promises of the original pair. */
  lemma StepKeeps(id: Identity, w: Pair, a: Action)
    requires Core(id, w) && Legal(id, w, a)
    ensures Core(id, Step(id, w, a))
    ensures Twin(w) && !a.Replace? ==> Twin(Step(id, w, a))
  {
    if a.Prepare? { PrepareStep(id, w, a); }
    else if a.Stage? { StageStep(id, w, a); }
    else if a.Decide? { DecideStep(id, w, a); }
    else if a.ApplySecondary? { ApplySecondaryStep(id, w, a); }
    else if a.ApplyPrimary? { ApplyPrimaryStep(id, w, a); }
    else if a.AbortSecondary? || a.AbortPrimary? { AbortStep(id, w, a); }
    else if a.Confirm? { ReadMarkerStep(id, w, a); }
    else if a.Quarantine? { QuarantineStep(id, w, a); }
    else if a.CapturePrimary? { CapturePrimaryStep(id, w, a); }
    else if a.CaptureSecondary? { CaptureSecondaryStep(id, w, a); }
    else if a.ConfirmPrimary? { ConfirmPrimaryStep(id, w, a); }
    else if a.ConfirmSecondary? { ConfirmSecondaryStep(id, w, a); }
    else if a.ActivatePrimary? { ActivatePrimaryStep(id, w, a); }
    else if a.ActivateSecondary? { ActivateSecondaryStep(id, w, a); }
    else if a.CompactPrimary? || a.CompactSecondary? { CompactStep(id, w, a); }
    else { ReplaceStep(id, w, a); }
  }
}
