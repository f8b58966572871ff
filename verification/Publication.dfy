/** Publishing and activating a base over a pair: capture here, capture there, confirm
    there, confirm here; then activate there, activate here. */
module Publication {
  import opened Basics
  import opened Reference
  import opened Ledgers
  import opened Tables
  import opened Nodes
  import opened Pairs
  import opened Runs
  import opened Comparison
  import opened Engine

  // ---------------------------------------------------------------- calls that may be lost

  method CaptureLocal(p: Node, s: Node, proposal: Proposal, bytes: nat, healthy: bool) returns (r: Outcome<Record>)
    requires Paired(p, s)
    modifies p
    ensures Paired(p, s) && Leads(p.identity, old(World(p, s)), World(p, s))
    ensures Took(healthy, r, old(p.ledger), p.ledger, CaptureBaseOn(old(p.ledger), Primary, p.identity, proposal, bytes))
  {
    hide Represents, Core, Leads, LedgerOk, CaptureBaseOn;
    Moves(p.identity, World(p, s), CapturePrimary(proposal, bytes));
    var lost := Lost(healthy);
    if lost {
      return Err(Unreachable);
    }
    r := p.CaptureBase(proposal, bytes);
    lost := Lost(healthy);
    if lost {
      r := Err(Unreachable);
    }
  }

  method CaptureRemote(p: Node, s: Node, proposal: Proposal, bytes: nat, healthy: bool) returns (r: Outcome<Record>)
    requires Paired(p, s) && p.ledger.publication.Some? && p.ledger.publication.value.proposal == proposal
    modifies s
    ensures Paired(p, s) && Leads(p.identity, old(World(p, s)), World(p, s))
    ensures Took(healthy, r, old(s.ledger), s.ledger, CaptureBaseOn(old(s.ledger), Secondary, p.identity, proposal, bytes))
  {
    hide Represents, Core, Leads, LedgerOk, CaptureBaseOn;
    Moves(p.identity, World(p, s), CaptureSecondary(proposal, bytes));
    var lost := Lost(healthy);
    if lost {
      return Err(Unreachable);
    }
    r := s.CaptureBase(proposal, bytes);
    lost := Lost(healthy);
    if lost {
      r := Err(Unreachable);
    }
  }

  method ConfirmBaseRemote(p: Node, s: Node, proposal: Proposal, healthy: bool) returns (r: Outcome<Record>)
    requires Paired(p, s) && p.ledger.publication.Some? && p.ledger.publication.value.proposal == proposal
    modifies s
    ensures Paired(p, s) && Leads(p.identity, old(World(p, s)), World(p, s))
    ensures Took(healthy, r, old(s.ledger), s.ledger, ConfirmBaseOn(old(s.ledger), Secondary, p.identity, proposal))
  {
    hide Represents, Core, Leads, LedgerOk, ConfirmBaseOn;
    Moves(p.identity, World(p, s), ConfirmSecondary(proposal));
    var lost := Lost(healthy);
    if lost {
      return Err(Unreachable);
    }
    r := s.ConfirmBase(proposal);
    lost := Lost(healthy);
    if lost {
      r := Err(Unreachable);
    }
  }

  method ConfirmBaseLocal(p: Node, s: Node, proposal: Proposal, healthy: bool) returns (r: Outcome<Record>)
    requires Paired(p, s) && s.ledger.publication == Some(Record(proposal, Confirmed))
    modifies p
    ensures Paired(p, s) && Leads(p.identity, old(World(p, s)), World(p, s))
    ensures Took(healthy, r, old(p.ledger), p.ledger, ConfirmBaseOn(old(p.ledger), Primary, p.identity, proposal))
  {
    hide Represents, Core, Leads, LedgerOk, ConfirmBaseOn;
    Moves(p.identity, World(p, s), ConfirmPrimary(proposal));
    var lost := Lost(healthy);
    if lost {
      return Err(Unreachable);
    }
    r := p.ConfirmBase(proposal);
    lost := Lost(healthy);
    if lost {
      r := Err(Unreachable);
    }
  }

  method ActivateRemote(p: Node, s: Node, proposal: Proposal, healthy: bool) returns (r: Outcome<()>)
    requires Paired(p, s) && p.ledger.publication == Some(Record(proposal, Confirmed))
    modifies s
    ensures Paired(p, s) && Leads(p.identity, old(World(p, s)), World(p, s))
    ensures Took(healthy, r, old(s.ledger), s.ledger, ActivateOn(old(s.ledger), Secondary, p.identity, proposal))
  {
    hide RowsHold, ReceiptsHold, MarkersHold, Leads, ActivateOn, Slots, ChainOk, PublicationOk, Genuine;
    Moves(p.identity, World(p, s), ActivateSecondary(proposal));
    var lost := Lost(healthy);
    if lost {
      return Err(Unreachable);
    }
    r := s.ActivatePublishedBase(proposal);
    lost := Lost(healthy);
    if lost {
      r := Err(Unreachable);
    }
  }

  method ActivateLocal(p: Node, s: Node, proposal: Proposal, healthy: bool) returns (r: Outcome<()>)
    requires Paired(p, s) && s.ledger.floor == Some(proposal.checkpoint.sequence)
    modifies p
    ensures Paired(p, s) && Leads(p.identity, old(World(p, s)), World(p, s))
    ensures Took(healthy, r, old(p.ledger), p.ledger, ActivateOn(old(p.ledger), Primary, p.identity, proposal))
  {
    hide RowsHold, ReceiptsHold, MarkersHold, Leads, ActivateOn, Slots, ChainOk, PublicationOk, Genuine;
    Moves(p.identity, World(p, s), ActivatePrimary(proposal));
    var lost := Lost(healthy);
    if lost {
      return Err(Unreachable);
    }
    r := p.ActivatePublishedBase(proposal);
    lost := Lost(healthy);
    if lost {
      r := Err(Unreachable);
    }
  }

  // ---------------------------------------------------------------- the pair operations

  /** A proposal the pair may carry through now: it names both generations, and it is the
      one in the primary's slot, or the slots are free and it names the present state. */
  ghost predicate Eligible(id: Identity, w: Pair, q: Proposal) {
    && Bound(w.p, Primary, id, q) && Bound(w.s, Secondary, id, q)
    && (if w.p.publication.Some? then w.p.publication.value.proposal == q
        else w.s.publication.None? && q.checkpoint == Current(id, w.p))
  }

  /** The generations named in the primary's slot, if it is taken, are still the nodes' own. */
  ghost predicate StableSlot(w: Pair) {
    w.p.publication.Some? ==>
      && w.p.generation == w.p.publication.value.proposal.primaryGeneration
      && w.s.generation == w.p.publication.value.proposal.secondaryGeneration
  }

  /** Both slots hold one confirmed record. */
  ghost predicate BothConfirmed(w: Pair, r: Record) {
    w.p.publication == Some(r) && w.s.publication == Some(r) && r.phase.Confirmed?
  }

  /** Only the publication slots of the two nodes may differ. */
  ghost predicate SlotsOnly(w: Pair, v: Pair) {
    v.p == w.p.(publication := v.p.publication) && v.s == w.s.(publication := v.s.publication)
  }

  /** Resume the proposal in the slot, or make a new one for the present state. */
  method Choose(p: Node, s: Node, token: nat, healthy: bool) returns (r: Outcome<Proposal>)
    requires Paired(p, s) && InStep(World(p, s))
    ensures r.Ok? ==> Eligible(p.identity, World(p, s), r.value) && r.value == Proposed(p.identity, World(p, s), token) && StableSlot(World(p, s))
    ensures healthy ==> (r.Ok? <==> StableSlot(World(p, s)))
  {
    hide RowsHold, ReceiptsHold, ChainOk;
    var lost := Lost(healthy);
    if lost {
      return Err(Unreachable);
    }
    var slot := p.BaseStatus();
    var current := p.GetCheckpoint();
    var peer := s.BaseStatus();
    if slot.Err? || current.Err? || peer.Err? {
      return Err(Unreachable);
    }
    if slot.value.None? && peer.value.Some? {
      return Err(SlotOccupied);
    }
    var q := if slot.value.Some? then slot.value.value.proposal else Proposal(current.value, token, p.db.generation, s.db.generation);
    if p.db.generation != q.primaryGeneration || s.db.generation != q.secondaryGeneration {
      return Err(StaleGeneration);
    }
    var at := p.GetCheckpointAt(q.checkpoint.sequence);
    r := if at == Ok(q.checkpoint) then Ok(q) else Err(CheckpointMismatch);
  }

  /** What a capture may hold: rows of data and receipts, and their bytes on each node. What
      is captured already is not measured again. */
  ghost predicate WithinQuota(w: Pair, pBytes: nat, sBytes: nat) {
    && (w.p.publication.None? ==> Rows(w.p) <= MAX_ROWS && pBytes <= MAX_BYTES)
    && (w.s.publication.None? ==> Rows(w.p) <= MAX_ROWS && sBytes <= MAX_BYTES)
  }

  /** The proposal in the primary's slot, or a new one for the present state. */
  ghost function Proposed(id: Identity, w: Pair, token: nat): Proposal {
    if w.p.publication.Some? then w.p.publication.value.proposal
    else Proposal(Current(id, w.p), token, w.p.generation, w.s.generation)
  }

  /** Exactly the captures that fit the quota succeed, and change the slots alone. */
  lemma CaptureSucceeds(id: Identity, w: Pair, q: Proposal, role: Role, bytes: nat)
    requires Core(id, w) && InStep(w) && Eligible(id, w, q)
    requires role == Secondary ==> w.p.publication.Some?
    ensures var l := if role.Primary? then w.p else w.s;
            var (r, n) := CaptureBaseOn(l, role, id, q, bytes);
            && (r.Ok? <==> l.publication.Some? || (Rows(l) <= MAX_ROWS && bytes <= MAX_BYTES))
            && (r.Ok? ==> n.publication == Some(r.value) && r.value.proposal == q)
            && n == l.(publication := n.publication) && (n.publication == l.publication || n.publication == Some(Record(q, Captured)))
  {
    CaptureBaseKeeps(w.s, Secondary, id, q, bytes);
    CaptureBaseKeeps(w.p, Primary, id, q, bytes);
  }

  method CapturePair(p: Node, s: Node, q: Proposal, pBytes: nat, sBytes: nat, healthy: bool) returns (r: Outcome<()>)
    requires Paired(p, s) && InStep(World(p, s)) && Eligible(p.identity, World(p, s), q)
    modifies p, s
    ensures Paired(p, s) && Leads(p.identity, old(World(p, s)), World(p, s)) && SlotsOnly(old(World(p, s)), World(p, s))
    ensures r.Ok? ==> p.ledger.publication.Some? && p.ledger.publication.value.proposal == q
    ensures r.Ok? ==> s.ledger.publication.Some? && s.ledger.publication.value.proposal == q
    ensures healthy ==> (r.Ok? <==> old(WithinQuota(World(p, s), pBytes, sBytes)))
  {
    hide Represents, Leads, LedgerOk, CaptureBaseOn, Journals, Slots, Rows;
    ghost var w := World(p, s);
    CaptureSucceeds(p.identity, w, q, Primary, pBytes);
    var here := CaptureLocal(p, s, q, pBytes, healthy);
    if here.Err? {
      return Err(here.error);
    }
    ghost var x := World(p, s);
    SameRowCount(w.s, w.p);
    CaptureSucceeds(p.identity, x, q, Secondary, sBytes);
    var there := CaptureRemote(p, s, q, sBytes, healthy);
    LeadsOn(p.identity, w, x, World(p, s));
    r := if there.Err? then Err(there.error) else Ok(());
  }

  lemma SameRowCount(l: Ledger, n: Ledger)
    ensures l.applied == n.applied ==> Rows(l) == Rows(n)
  {
  }

  method ConfirmPair(p: Node, s: Node, q: Proposal, healthy: bool) returns (r: Outcome<Record>)
    requires Paired(p, s)
    requires p.ledger.publication.Some? && p.ledger.publication.value.proposal == q
    requires s.ledger.publication.Some? && s.ledger.publication.value.proposal == q
    modifies p, s
    ensures Paired(p, s) && Leads(p.identity, old(World(p, s)), World(p, s)) && SlotsOnly(old(World(p, s)), World(p, s))
    ensures r.Ok? ==> BothConfirmed(World(p, s), r.value) && r.value.proposal == q
    ensures healthy && Bound(p.ledger, Primary, p.identity, q) && Bound(s.ledger, Secondary, p.identity, q) ==> r.Ok?
  {
    hide RowsHold, ReceiptsHold, Leads, LedgerOk, Journals, Slots;
    ghost var w := World(p, s);
    var there := ConfirmBaseRemote(p, s, q, healthy);
    if there.Err? {
      return there;
    }
    ghost var x := World(p, s);
    var lost := Lost(healthy);
    if lost || s.db.generation != q.secondaryGeneration {
      return Err(StaleGeneration);
    }
    r := ConfirmBaseLocal(p, s, q, healthy);
    LeadsOn(p.identity, w, x, World(p, s));
  }

  /** The pair once the primary's last row is settled. */
  ghost function Recovered(w: Pair): Pair {
    w.(p := Reconciled(w.p))
  }

  /** Publish a base: on success both slots hold the same confirmed record, that of the
      proposal underway or of the present checkpoint. Interrupted at any point it can be
      resumed; over a healthy link it completes exactly within the quota and with the
      generations named. */
  method PublishBase(p: Node, s: Node, token: nat, pBytes: nat, sBytes: nat, healthy: bool) returns (r: Outcome<Record>)
    requires Attached(p, s)
    modifies p, s
    ensures Attached(p, s)
    ensures old(Paired(p, s)) ==> Paired(p, s) && Kept(p.identity, old(World(p, s)), World(p, s))
    ensures r.Ok? ==> Paired(p, s) && BothConfirmed(World(p, s), r.value) && InStep(World(p, s))
    ensures r.Ok? ==> PublicationOk(p.identity, p.ledger) && PublicationOk(p.identity, s.ledger)
    ensures r.Ok? ==> r.value.proposal == Proposed(p.identity, Recovered(old(World(p, s))), token)
    ensures healthy && Matched(p, s) && old(Reachable(p.ledger, s.ledger)) ==>
              (r.Ok? <==> StableSlot(old(World(p, s))) && WithinQuota(Recovered(old(World(p, s))), pBytes, sBytes))
  {
    hide Represents, Leads, Rows;
    ghost var w := World(p, s);
    var recovered := Recover(p, s, healthy);
    if recovered.Err? {
      return Err(recovered.error);
    }
    ghost var x := World(p, s);
    r := PublishInStep(p, s, token, pBytes, sBytes, healthy);
    LeadsOn(p.identity, w, x, World(p, s));
  }

  method PublishInStep(p: Node, s: Node, token: nat, pBytes: nat, sBytes: nat, healthy: bool) returns (r: Outcome<Record>)
    requires Paired(p, s) && InStep(World(p, s))
    modifies p, s
    ensures Paired(p, s) && Leads(p.identity, old(World(p, s)), World(p, s)) && SlotsOnly(old(World(p, s)), World(p, s))
    ensures r.Ok? ==> BothConfirmed(World(p, s), r.value) && r.value.proposal == old(Proposed(p.identity, World(p, s), token))
    ensures healthy ==> (r.Ok? <==> old(StableSlot(World(p, s)) && WithinQuota(World(p, s), pBytes, sBytes)))
  {
    hide Represents, Leads, Core, LedgerOk, Rows, StableSlot;
    ghost var w := World(p, s);
    LeadsNowhere(p.identity, w);
    var q := Choose(p, s, token, healthy);
    if q.Err? {
      return Err(q.error);
    }
    var captured := CapturePair(p, s, q.value, pBytes, sBytes, healthy);
    if captured.Err? {
      return Err(captured.error);
    }
    ghost var x := World(p, s);
    r := ConfirmPair(p, s, q.value, healthy);
    LeadsOn(p.identity, w, x, World(p, s));
  }

  /** The pair can activate: both slots hold one confirmed record naming both generations. */
  ghost predicate Activatable(w: Pair) {
    w.p.publication.Some? && BothConfirmed(w, w.p.publication.value) && StableSlot(w)
  }

  /** A confirmed record activates on a node with nothing pending. */
  lemma ActivateSucceeds(id: Identity, l: Ledger, role: Role, r: Record)
    requires LedgerOk(id, l) && l.publication == Some(r) && r.phase.Confirmed? && l.pending.None? && !l.transferring
    ensures var (o, n) := ActivateOn(l, role, id, r.proposal);
            && (o.Ok? <==> Bound(l, role, id, r.proposal))
            && (o.Ok? ==> n == l.(floor := Some(r.proposal.checkpoint.sequence)))
            && (n == l || n == l.(floor := Some(r.proposal.checkpoint.sequence)))
  {
    var c := r.proposal.checkpoint;
    if BaseOf(id, l) == Some(c) {
      assert l.floor == Some(c.sequence);
      assert l == l.(floor := Some(c.sequence));
    }
  }

  /** Make the published checkpoint the base of both nodes, secondary first. Journals, data
      and checkpoints stay. Over a healthy link this succeeds exactly when both slots hold
      one confirmed record of the nodes' present generations. */
  method ActivateBase(p: Node, s: Node, healthy: bool) returns (r: Outcome<()>)
    requires Attached(p, s)
    modifies p, s
    ensures Attached(p, s)
    ensures old(Paired(p, s)) ==> Paired(p, s) && Kept(p.identity, old(World(p, s)), World(p, s))
    ensures r.Ok? ==> old(p.ledger).publication.Some? && InStep(World(p, s))
    ensures r.Ok? ==> p.ledger.floor == s.ledger.floor == Some(old(p.ledger).publication.value.proposal.checkpoint.sequence)
    ensures r.Ok? ==> Current(p.identity, p.ledger) == Current(p.identity, Reconciled(old(p.ledger)))
    ensures healthy && Matched(p, s) && old(Reachable(p.ledger, s.ledger)) ==> (r.Ok? <==> old(Activatable(World(p, s))))
  {
    hide Represents, Leads, Core, LedgerOk, StableSlot;
    ghost var w := World(p, s);
    if Paired(p, s) {
      LeadsNowhere(p.identity, w);
    }
    var q := ConfirmedProposal(p, s, healthy);
    if q.Err? {
      return Err(q.error);
    }
    var recovered := Recover(p, s, healthy);
    if recovered.Err? {
      return Err(recovered.error);
    }
    ghost var x := World(p, s);
    StableWhileInStep(w, x);
    r := ActivateInStep(p, s, q.value, healthy);
    LeadsOn(p.identity, w, x, World(p, s));
  }

  lemma StableWhileInStep(w: Pair, v: Pair)
    requires StableSlot(w) && v.p.publication == w.p.publication && v.p.generation == w.p.generation && v.s.generation == w.s.generation
    ensures StableSlot(v)
  {
  }

  /** The record to activate, if both nodes show it confirmed and current. */
  method ConfirmedProposal(p: Node, s: Node, healthy: bool) returns (r: Outcome<Proposal>)
    requires p.Valid() && s.Valid()
    ensures r.Ok? ==> Activatable(World(p, s)) && p.ledger.publication.value == Record(r.value, Confirmed)
    ensures healthy ==> (r.Ok? <==> Activatable(World(p, s)))
  {
    hide RowsHold, ReceiptsHold, ChainOk;
    var lost := Lost(healthy);
    var slot := p.BaseStatus();
    var peer := s.BaseStatus();
    if lost || slot.Err? || peer.Err? || slot.value.None? || !slot.value.value.phase.Confirmed? || peer.value != slot.value {
      return Err(NotConfirmed);
    }
    var q := slot.value.value.proposal;
    if p.db.generation != q.primaryGeneration || s.db.generation != q.secondaryGeneration {
      return Err(StaleGeneration);
    }
    r := Ok(q);
  }

  method ActivateInStep(p: Node, s: Node, q: Proposal, healthy: bool) returns (r: Outcome<()>)
    requires Paired(p, s) && InStep(World(p, s)) && BothConfirmed(World(p, s), Record(q, Confirmed))
    modifies p, s
    ensures Paired(p, s) && Leads(p.identity, old(World(p, s)), World(p, s))
    ensures p.ledger == old(p.ledger).(floor := p.ledger.floor) && s.ledger == old(s.ledger).(floor := s.ledger.floor)
    ensures r.Ok? ==> p.ledger.floor == s.ledger.floor == Some(q.checkpoint.sequence)
    ensures healthy && StableSlot(old(World(p, s))) ==> r.Ok?
  {
    hide RowsHold, ReceiptsHold, Leads, ChainOk, Genuine, ActivateOn;
    ghost var w := World(p, s);
    ActivateSucceeds(p.identity, s.ledger, Secondary, Record(q, Confirmed));
    r := ActivateRemote(p, s, q, healthy);
    if r.Err? {
      return;
    }
    ghost var x := World(p, s);
    var lost := Lost(healthy);
    var head := s.Head();
    if lost || head.Err? || head.value.base != Some(q.checkpoint) || head.value.generation != q.secondaryGeneration {
      return Err(NotConfirmed);
    }
    ActivateSucceeds(p.identity, p.ledger, Primary, Record(q, Confirmed));
    r := ActivateLocal(p, s, q, healthy);
    LeadsOn(p.identity, w, x, World(p, s));
  }
}
