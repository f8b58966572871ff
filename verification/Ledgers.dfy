/** A replica as its protocol sees it: the bodies it has applied, at most one pending
    body, and the markers kept beside them. Every operation of a node is given here as a
    function on this value; class Node implements them over tables. */
module Ledgers {
  import opened Basics
  import opened Reference

  const MAX_SEQUENCE: nat := 0x7fff_ffff_ffff_ffff
  const MAX_PAGE_BYTES: nat := 8 * 1024 * 1024
  const MAX_PAGE_ENTRIES: nat := 32
  const MAX_ROWS: nat := 100_000
  const MAX_BYTES: nat := 256 * 1024 * 1024

  datatype Identity = Identity(cluster: Text, tenant: Text, epoch: nat, schema: nat)
  datatype Role = Primary | Secondary
  datatype State = Prepared | Decided | Applied

  datatype Batch = Batch(identity: Identity, operationId: Text, changes: Changes)

  /** Journal content. View digests are ideal, so `before` and `after` are the views;
      replaying the captured changeset on `before` yields `after`. `bulk` is the
      serialized size apart from the state's name. */
  datatype Body = Body(batch: Batch, sequence: nat, before: View, after: View, bulk: nat)

  /** An ideal content checksum. */
  datatype Digest = Checksum(body: Body)

  datatype Entry = Entry(body: Body, digest: Digest, state: State)

  datatype WriteResult = WriteResult(operationId: Text, sequence: nat)

  datatype Receipt = Receipt(fingerprintVersion: nat, request: Fingerprint, resultVersion: nat, result: WriteResult)

  /** The hash chain over applied entries. */
  datatype Chain = Seed(identity: Identity) | Link(previous: Chain, entry: Digest)

  /** `receipts` is the ideal digest of the receipt prefix, kept as the prefix itself. */
  datatype Checkpoint =
    Checkpoint(format: nat, identity: Identity, sequence: nat, view: View, journal: Chain, receipts: seq<Receipt>)

  datatype Proposal =
    Proposal(checkpoint: Checkpoint, token: nat, primaryGeneration: nat, secondaryGeneration: nat)
  datatype Phase = Captured | Confirmed
  datatype Record = Record(proposal: Proposal, phase: Phase)

  /** What the database reports while a request is captured: the serialized size it will
      have, and whether the column CHECKs outside the reference schema's keys pass. */
  datatype Capture = Capture(bulk: nat, checksPass: bool)

  datatype Error =
    | WrongRole | InvalidBatch | KeyReused | HistoricalOperation | PublicationInProgress
    | RecoveryRequired | ConstraintViolation | EntryTooLarge | InvalidKey | MalformedEntry
    | TransferInProgress | DivergentLog | OutOfOrder | BaseMismatch | UnknownOperation
    | DecisionRequired | NotStaged | DecisionMismatch | NoDurableDecision | NotAbortable
    | CheckpointMismatch | InvalidBase | PrefixBeforeBase | Unresolved | MissingPrefix
    | OrphanReceipt | ReceiptMismatch | ChainMismatch | SequenceGap | StaleCursor | InvalidCursor
    | PrematureEnd | PairMismatch | SecondaryAhead | SecondaryBelowBase | DivergentJournals
    | JournalChanged | Unreachable | SlotOccupied | NotCaptured | QuotaExceeded | StaleGeneration
    | NotConfirmed | BaseBackwards | MissingReceipt | DataMismatch

  type Outcome<T> = Result<T, Error>

  datatype Pending = Pending(body: Body, state: State)

  /** `missing` are the sequences whose journal rows were deleted below the active base. */
  datatype Ledger = Ledger(
    applied: seq<Body>, pending: Option<Pending>, missing: set<nat>, floor: Option<nat>,
    ready: Option<Checkpoint>, publication: Option<Record>, generation: nat, transferring: bool)

  // ---------------------------------------------------------------- entries

  function Sealed(b: Body, state: State): Entry {
    Entry(b, Checksum(b), state)
  }

  /** The state names have eight letters (Prepared) or seven (Decided, Applied). */
  function Size(e: Entry): nat {
    e.body.bulk + if e.state.Prepared? then 8 else 7
  }

  predicate FitsPage(e: Entry) {
    Size(e) + (if e.state.Prepared? then 0 else 1) < MAX_PAGE_BYTES
  }

  predicate ValidEntry(e: Entry, id: Identity) {
    e.body.batch.identity == id && e.digest == Checksum(e.body)
  }

  function ReceiptOf(b: Body): Receipt {
    Receipt(1, HashOf(b.batch.changes), 1, WriteResult(b.batch.operationId, b.sequence))
  }

  // ---------------------------------------------------------------- lineages

  function ViewAt(a: seq<Body>, n: nat): View
    requires n <= |a|
  {
    if n == 0 then EMPTY_VIEW else a[n - 1].after
  }

  function ChainAt(id: Identity, a: seq<Body>, n: nat): Chain
    requires n <= |a|
  {
    if n == 0 then Seed(id) else Link(ChainAt(id, a, n - 1), Checksum(a[n - 1]))
  }

  function ReceiptsAt(a: seq<Body>, n: nat): (r: seq<Receipt>)
    requires n <= |a|
    ensures |r| == n
    ensures forall i :: 0 <= i < n ==> r[i] == ReceiptOf(a[i])
  {
    if n == 0 then [] else ReceiptsAt(a, n - 1) + [ReceiptOf(a[n - 1])]
  }

  function CheckpointAt(id: Identity, a: seq<Body>, n: nat): Checkpoint
    requires n <= |a|
  {
    Checkpoint(1, id, n, ViewAt(a, n), ChainAt(id, a, n), ReceiptsAt(a, n))
  }

  /** 1-based position of an operation, 0 when absent. */
  function Position(a: seq<Body>, op: Text): (k: nat)
    ensures k <= |a|
    ensures k == 0 <==> forall i :: 0 <= i < |a| ==> a[i].batch.operationId != op
    ensures k > 0 ==> a[k - 1].batch.operationId == op
  {
    if a == [] then 0
    else if a[|a| - 1].batch.operationId == op then |a|
    else Position(a[..|a| - 1], op)
  }

  predicate LinkOk(id: Identity, a: seq<Body>, i: nat)
    requires i < |a|
  {
    && a[i].batch.identity == id
    && a[i].batch.operationId != []
    && a[i].sequence == i + 1
    && a[i].before == ViewAt(a, i)
    && a[i].bulk + 8 < MAX_PAGE_BYTES
  }

  predicate DistinctOps(a: seq<Body>) {
    forall i, j :: 0 <= i < j < |a| ==> a[i].batch.operationId != a[j].batch.operationId
  }

  predicate ChainOk(id: Identity, a: seq<Body>) {
    && (forall i :: 0 <= i < |a| ==> LinkOk(id, a, i))
    && DistinctOps(a)
  }

  // ---------------------------------------------------------------- ledgers

  function Full(l: Ledger): (f: seq<Body>)
    ensures |f| == Length(l)
    ensures l.applied <= f
  {
    l.applied + if l.pending.Some? then [l.pending.value.body] else []
  }

  /** The bodies this node can no longer abort. */
  function Committed(l: Ledger): (f: seq<Body>)
    ensures l.applied <= f <= Full(l)
  {
    l.applied + if l.pending.Some? && !l.pending.value.state.Prepared? then [l.pending.value.body] else []
  }

  function Length(l: Ledger): nat {
    |l.applied| + if l.pending.Some? then 1 else 0
  }

  function Floor(l: Ledger): nat {
    if l.floor.Some? then l.floor.value else 0
  }

  predicate Present(l: Ledger, i: nat) {
    1 <= i <= Length(l) && i !in l.missing
  }

  function EntryAt(l: Ledger, i: nat): Entry
    requires 1 <= i <= Length(l)
  {
    if i <= |l.applied| then Sealed(l.applied[i - 1], Applied)
    else Sealed(l.pending.value.body, l.pending.value.state)
  }

  function Current(id: Identity, l: Ledger): Checkpoint {
    CheckpointAt(id, l.applied, |l.applied|)
  }

  function BaseOf(id: Identity, l: Ledger): Option<Checkpoint>
    requires Floor(l) <= |l.applied|
  {
    if l.floor.Some? then Some(CheckpointAt(id, l.applied, l.floor.value)) else None
  }

  predicate Idle(publication: Option<Record>) {
    publication.Some? ==> publication.value.phase.Confirmed?
  }

  predicate PublicationOk(id: Identity, l: Ledger) {
    l.publication.Some? ==>
      var c := l.publication.value.proposal.checkpoint;
      Floor(l) <= c.sequence <= |l.applied| && c == CheckpointAt(id, l.applied, c.sequence)
  }

  predicate LedgerOk(id: Identity, l: Ledger) {
    && ChainOk(id, Full(l))
    && Length(l) <= MAX_SEQUENCE
    && (l.pending.Some? ==> !l.pending.value.state.Applied?)
    && Floor(l) <= |l.applied|
    && (forall i :: i in l.missing ==> 1 <= i <= Floor(l))
    && PublicationOk(id, l)
  }

  // ---------------------------------------------------------------- operations

  function PrepareOn(l: Ledger, role: Role, id: Identity, batch: Batch, c: Capture): (r: (Outcome<Entry>, Ledger))
    requires LedgerOk(id, l)
  {
    var at := Position(Full(l), batch.operationId);
    if role != Primary then (Err(WrongRole), l)
    else if batch.identity != id || batch.operationId == [] then (Err(InvalidBatch), l)
    else if at > 0 && Present(l, at) then
      (if EntryAt(l, at).body.batch == batch then Ok(EntryAt(l, at)) else Err(KeyReused), l)
    else if at > 0 then (Err(HistoricalOperation), l)
    else if !Idle(l.publication) then (Err(PublicationInProgress), l)
    else if l.pending.Some? then (Err(RecoveryRequired), l)
    else CaptureOn(l, batch, c)
  }

  /** Executing a new request on the current view and recording its outcome. */
  function CaptureOn(l: Ledger, batch: Batch, c: Capture): (r: (Outcome<Entry>, Ledger)) {
    var before := ViewAt(l.applied, |l.applied|);
    var after := Execute(before, batch.changes);
    if after.None? || !c.checksPass then (Err(ConstraintViolation), l)
    else
      var b := Body(batch, |l.applied| + 1, before, after.value, c.bulk);
      if !FitsPage(Sealed(b, Prepared)) then (Err(EntryTooLarge), l)
      else if b.sequence > MAX_SEQUENCE then (Err(InvalidKey), l)
      else (Ok(Sealed(b, Prepared)), l.(pending := Some(Pending(b, Prepared))))
  }

  function StageOn(l: Ledger, role: Role, id: Identity, e: Entry): (r: (Outcome<()>, Ledger))
    requires LedgerOk(id, l)
  {
    if role != Secondary then (Err(WrongRole), l)
    else if !ValidEntry(e, id) then (Err(MalformedEntry), l)
    else if !FitsPage(e) then (Err(EntryTooLarge), l)
    else if l.transferring then (Err(TransferInProgress), l)
    else if Present(l, e.body.sequence) then
      (if EntryAt(l, e.body.sequence).digest == e.digest then Ok(()) else Err(DivergentLog), l)
    else if !Idle(l.publication) then (Err(PublicationInProgress), l)
    else if e.body.sequence != Length(l) + 1 || l.pending.Some? then (Err(OutOfOrder), l)
    else if e.body.before != ViewAt(l.applied, |l.applied|) then (Err(BaseMismatch), l)
    else if e.body.sequence > MAX_SEQUENCE || e.body.batch.operationId == [] then (Err(InvalidKey), l)
    else if Position(Full(l), e.body.batch.operationId) > 0 then (Err(KeyReused), l)
    else (Ok(()), l.(pending := Some(Pending(e.body, Prepared))))
  }

  function DecideOn(l: Ledger, role: Role, id: Identity, op: Text): (r: (Outcome<Entry>, Ledger))
    requires LedgerOk(id, l)
  {
    var at := Position(Full(l), op);
    if role != Primary then (Err(WrongRole), l)
    else if at == 0 || !Present(l, at) then (Err(UnknownOperation), l)
    else if EntryAt(l, at).state.Prepared? then
      (Ok(EntryAt(l, at).(state := Decided)), l.(pending := Some(Pending(l.pending.value.body, Decided))))
    else (Ok(EntryAt(l, at)), l)
  }

  function Settled(l: Ledger): Ledger
    requires l.pending.Some?
  {
    l.(applied := l.applied + [l.pending.value.body], pending := None)
  }

  /** The ledger once its pending body is applied. A secondary whose read marker matched
      its checkpoint moves the marker along. */
  function Settle(l: Ledger, role: Role, id: Identity): Ledger
    requires l.pending.Some?
  {
    if role == Secondary && l.ready == Some(Current(id, l))
    then Settled(l).(ready := Some(Current(id, Settled(l))))
    else Settled(l)
  }

  function ApplyOn(l: Ledger, role: Role, id: Identity, d: Entry): (r: (Outcome<()>, Ledger))
    requires LedgerOk(id, l)
  {
    if !ValidEntry(d, id) then (Err(MalformedEntry), l)
    else if d.state.Prepared? then (Err(DecisionRequired), l)
    else if l.transferring then (Err(TransferInProgress), l)
    else if !Present(l, d.body.sequence) then (Err(NotStaged), l)
    else if EntryAt(l, d.body.sequence).digest != d.digest then (Err(DecisionMismatch), l)
    else if d.body.sequence <= |l.applied| then (Ok(()), l)
    else if role == Primary && !l.pending.value.state.Decided? then (Err(NoDurableDecision), l)
    else (Ok(()), Settle(l, role, id))
  }

  function AbortOn(l: Ledger, op: Text): (r: (Outcome<()>, Ledger))
  {
    var at := Position(Full(l), op);
    if l.transferring then (Err(TransferInProgress), l)
    else if at == 0 || !Present(l, at) then (Ok(()), l)
    else if EntryAt(l, at).state.Prepared? then (Ok(()), l.(pending := None))
    else (Err(NotAbortable), l)
  }

  function ConfirmCheckpointOn(l: Ledger, role: Role, id: Identity, c: Checkpoint): (r: (Outcome<()>, Ledger))
  {
    if role != Secondary || c.identity != id then (Err(WrongRole), l)
    else if l.transferring then (Err(TransferInProgress), l)
    else if l.pending.Some? then (Err(Unresolved), l)
    else if Current(id, l) != c then (Err(CheckpointMismatch), l)
    else (Ok(()), l.(ready := Some(c)))
  }

  function QuarantineOn(l: Ledger, role: Role, newGeneration: nat): (r: (Outcome<()>, Ledger))
  {
    if role != Secondary then (Err(WrongRole), l)
    else (Ok(()), l.(ready := None, generation := newGeneration))
  }

  /** What the receipt table answers for an operation. */
  function ReceiptOn(l: Ledger, op: Text): Option<Receipt> {
    var at := Position(Full(l), op);
    if 0 < at <= |l.applied| then Some(ReceiptOf(l.applied[at - 1])) else None
  }

  predicate Matches(r: Receipt, batch: Batch) {
    && r.fingerprintVersion == 1 && r.resultVersion == 1
    && batch.operationId != [] && 0 < r.result.sequence <= MAX_SEQUENCE
    && r.result.operationId == batch.operationId
    && r.request == HashOf(batch.changes)
  }

  function CompletedOn(l: Ledger, id: Identity, batch: Batch): Outcome<Option<WriteResult>> {
    if batch.identity != id || batch.operationId == [] then Err(InvalidBatch)
    else
      match ReceiptOn(l, batch.operationId)
      case None => Ok(None)
      case Some(r) => if Matches(r, batch) then Ok(Some(r.result)) else Err(KeyReused)
  }

  // ---------------------------------------------------------------- publication

  predicate Bound(l: Ledger, role: Role, id: Identity, p: Proposal) {
    && p.checkpoint.identity == id && p.checkpoint.format == 1
    && l.generation == if role.Primary? then p.primaryGeneration else p.secondaryGeneration
  }

  function Rows(l: Ledger): nat {
    var v := ViewAt(l.applied, |l.applied|);
    |v.places| + |v.features| + |l.applied|
  }

  function CaptureBaseOn(l: Ledger, role: Role, id: Identity, p: Proposal, bytes: nat): (r: (Outcome<Record>, Ledger))
  {
    if !Bound(l, role, id, p) then (Err(StaleGeneration), l)
    else if l.publication.Some? then
      (if l.publication.value.proposal == p then Ok(l.publication.value) else Err(SlotOccupied), l)
    else if l.transferring then (Err(TransferInProgress), l)
    else if l.pending.Some? then (Err(Unresolved), l)
    else if Current(id, l) != p.checkpoint then (Err(CheckpointMismatch), l)
    else if Rows(l) > MAX_ROWS || bytes > MAX_BYTES then (Err(QuotaExceeded), l)
    else (Ok(Record(p, Captured)), l.(publication := Some(Record(p, Captured))))
  }

  function ConfirmBaseOn(l: Ledger, role: Role, id: Identity, p: Proposal): (r: (Outcome<Record>, Ledger))
  {
    if !Bound(l, role, id, p) then (Err(StaleGeneration), l)
    else if l.publication.None? then (Err(NotCaptured), l)
    else if l.publication.value.proposal != p then (Err(SlotOccupied), l)
    else (Ok(Record(p, Confirmed)), l.(publication := Some(Record(p, Confirmed))))
  }

  function ActivateOn(l: Ledger, role: Role, id: Identity, p: Proposal): (r: (Outcome<()>, Ledger))
    requires LedgerOk(id, l)
  {
    if !Bound(l, role, id, p) then (Err(StaleGeneration), l)
    else if l.publication.None? then (Err(NotCaptured), l)
    else if l.publication.value != Record(p, Confirmed) then (Err(NotConfirmed), l)
    else if BaseOf(id, l) == Some(p.checkpoint) then (Ok(()), l)
    else if l.floor.Some? && l.floor.value >= p.checkpoint.sequence then (Err(BaseBackwards), l)
    else if l.transferring then (Err(TransferInProgress), l)
    else if l.pending.Some? then (Err(Unresolved), l)
    else (Ok(()), l.(floor := Some(p.checkpoint.sequence)))
  }

  /** Deleting journal rows at or below the active base. */
  function CompactOn(l: Ledger, rows: set<nat>): Ledger {
    l.(missing := l.missing + set i | i in rows && 1 <= i <= Floor(l))
  }

  // ---------------------------------------------------------------- basic facts

  lemma {:induction false} PrefixSame(id: Identity, a: seq<Body>, b: seq<Body>, n: nat)
    requires n <= |a| && n <= |b| && forall i :: 0 <= i < n ==> a[i] == b[i]
    ensures CheckpointAt(id, a, n) == CheckpointAt(id, b, n)
    ensures ChainAt(id, a, n) == ChainAt(id, b, n)
    ensures ReceiptsAt(a, n) == ReceiptsAt(b, n)
  {
    if n > 0 {
      PrefixSame(id, a, b, n - 1);
    }
  }

  /** A checkpoint fixes the whole history below it. */
  lemma {:induction false} CheckpointFixesHistory(id: Identity, a: seq<Body>, b: seq<Body>, n: nat)
    requires n <= |a| && n <= |b| && ChainAt(id, a, n) == ChainAt(id, b, n)
    ensures forall i :: 0 <= i < n ==> a[i] == b[i]
  {
    if n > 0 {
      CheckpointFixesHistory(id, a, b, n - 1);
    }
  }

  lemma PositionUnique(a: seq<Body>, op: Text, i: nat)
    requires DistinctOps(a) && i < |a| && a[i].batch.operationId == op
    ensures Position(a, op) == i + 1
  {
  }

  lemma PrefixChainOk(id: Identity, a: seq<Body>, b: seq<Body>)
    requires ChainOk(id, b) && a <= b
    ensures ChainOk(id, a)
  {
    forall i | 0 <= i < |a|
      ensures LinkOk(id, a, i)
    {
      assert LinkOk(id, b, i);
    }
  }

  lemma ExtendChain(id: Identity, a: seq<Body>, b: Body)
    requires ChainOk(id, a)
    requires b.batch.identity == id && b.batch.operationId != [] && b.sequence == |a| + 1
    requires b.before == ViewAt(a, |a|) && b.bulk + 8 < MAX_PAGE_BYTES
    requires Position(a, b.batch.operationId) == 0
    ensures ChainOk(id, a + [b])
  {
    var c := a + [b];
    forall i | 0 <= i < |c|
      ensures LinkOk(id, c, i)
    {
      if i < |a| {
        assert LinkOk(id, a, i);
      }
    }
  }

  // ---------------------------------------------------------------- operations keep ledgers well formed

  lemma PrepareKeeps(l: Ledger, role: Role, id: Identity, batch: Batch, c: Capture)
    requires LedgerOk(id, l)
    ensures LedgerOk(id, PrepareOn(l, role, id, batch, c).1)
  {
    var (r, n) := PrepareOn(l, role, id, batch, c);
    if n != l {
      assert Full(l) == l.applied;
      ExtendChain(id, l.applied, n.pending.value.body);
    }
  }

  lemma StageKeeps(l: Ledger, role: Role, id: Identity, e: Entry)
    requires LedgerOk(id, l)
    ensures LedgerOk(id, StageOn(l, role, id, e).1)
    ensures StageOn(l, role, id, e).1 != l ==>
              && StageOn(l, role, id, e).1 == l.(pending := Some(Pending(e.body, Prepared)))
              && l.pending.None? && e.body.sequence == |l.applied| + 1
  {
    var (r, n) := StageOn(l, role, id, e);
    if n != l {
      assert Full(l) == l.applied;
      ExtendChain(id, l.applied, e.body);
    }
  }

  lemma DecideKeeps(l: Ledger, role: Role, id: Identity, op: Text)
    requires LedgerOk(id, l)
    ensures LedgerOk(id, DecideOn(l, role, id, op).1)
    ensures Full(DecideOn(l, role, id, op).1) == Full(l)
  {
  }

  lemma SettledKeeps(l: Ledger, id: Identity)
    requires LedgerOk(id, l) && l.pending.Some?
    ensures LedgerOk(id, Settled(l))
    ensures Full(Settled(l)) == Full(l) == Settled(l).applied
  {
    var n := Settled(l);
    assert Full(n) == Full(l);
    if l.publication.Some? {
      PrefixSame(id, l.applied, n.applied, l.publication.value.proposal.checkpoint.sequence);
    }
  }

  lemma SettleKeeps(l: Ledger, role: Role, id: Identity)
    requires LedgerOk(id, l) && l.pending.Some?
    ensures LedgerOk(id, Settle(l, role, id))
    ensures Full(Settle(l, role, id)) == Full(l) == Settle(l, role, id).applied
  {
    SettledKeeps(l, id);
    assert Full(Settle(l, role, id)) == Full(Settled(l));
  }

  lemma ApplyKeeps(l: Ledger, role: Role, id: Identity, d: Entry)
    requires LedgerOk(id, l)
    ensures LedgerOk(id, ApplyOn(l, role, id, d).1)
    ensures ApplyOn(l, role, id, d).1 != l ==>
              && l.pending.Some? && ApplyOn(l, role, id, d).1 == Settle(l, role, id) && d.body.sequence == Length(l)
              && (role == Primary ==> l.pending.value.state.Decided?)
  {
    if ApplyOn(l, role, id, d).1 != l {
      SettleKeeps(l, role, id);
    }
  }

  lemma AbortKeeps(l: Ledger, id: Identity, op: Text)
    requires LedgerOk(id, l)
    ensures LedgerOk(id, AbortOn(l, op).1)
    ensures AbortOn(l, op).1 != l ==>
              && AbortOn(l, op).1 == l.(pending := None)
              && l.pending.Some? && l.pending.value.state.Prepared?
  {
    var n := AbortOn(l, op).1;
    if n != l {
      assert Full(n) == l.applied;
      PrefixChainOk(id, l.applied, Full(l));
    }
  }

  /** Nothing but markers differs. */
  predicate SameJournal(l: Ledger, n: Ledger) {
    n.applied == l.applied && n.pending == l.pending && n.missing == l.missing && n.transferring == l.transferring
  }

  lemma CaptureBaseKeeps(l: Ledger, role: Role, id: Identity, p: Proposal, bytes: nat)
    requires LedgerOk(id, l)
    ensures LedgerOk(id, CaptureBaseOn(l, role, id, p, bytes).1)
    ensures CaptureBaseOn(l, role, id, p, bytes).1 != l ==>
              && CaptureBaseOn(l, role, id, p, bytes).1 == l.(publication := Some(Record(p, Captured)))
              && Bound(l, role, id, p) && l.publication.None? && l.pending.None? && p.checkpoint == Current(id, l)
  {
    assert Full(CaptureBaseOn(l, role, id, p, bytes).1) == Full(l);
  }

  lemma ConfirmBaseKeeps(l: Ledger, role: Role, id: Identity, p: Proposal)
    requires LedgerOk(id, l)
    ensures LedgerOk(id, ConfirmBaseOn(l, role, id, p).1)
    ensures ConfirmBaseOn(l, role, id, p).1 != l ==>
              && ConfirmBaseOn(l, role, id, p).1 == l.(publication := Some(Record(p, Confirmed)))
              && l.publication == Some(Record(p, Captured))
  {
    if l.publication.Some? && l.publication.value.proposal == p {
      assert l.publication.value == Record(p, l.publication.value.phase);
      assert l.publication.value.phase.Confirmed? ==> l.(publication := Some(Record(p, Confirmed))) == l;
    }
    assert Full(ConfirmBaseOn(l, role, id, p).1) == Full(l);
  }

  lemma ActivateKeeps(l: Ledger, role: Role, id: Identity, p: Proposal)
    requires LedgerOk(id, l)
    ensures LedgerOk(id, ActivateOn(l, role, id, p).1)
    ensures ActivateOn(l, role, id, p).1 != l ==>
              && ActivateOn(l, role, id, p).1 == l.(floor := Some(p.checkpoint.sequence))
              && l.publication == Some(Record(p, Confirmed)) && p.checkpoint.sequence <= |l.applied|
  {
    assert Full(ActivateOn(l, role, id, p).1) == Full(l);
  }

  lemma CompactKeeps(l: Ledger, id: Identity, rows: set<nat>)
    requires LedgerOk(id, l)
    ensures LedgerOk(id, CompactOn(l, rows))
  {
    assert Full(CompactOn(l, rows)) == Full(l);
  }

  // ---------------------------------------------------------------- which requests are accepted

  ghost predicate Contains(a: seq<Body>, batch: Batch) {
    exists i :: 0 <= i < |a| && a[i].batch == batch
  }

  ghost predicate Uses(a: seq<Body>, op: Text) {
    exists i :: 0 <= i < |a| && a[i].batch.operationId == op
  }

  /** Why a primary with this applied history and nothing pending refuses a request; None if
      it accepts it or has it already. */
  ghost function Refusal(id: Identity, a: seq<Body>, idle: bool, batch: Batch, c: Capture): Option<Error> {
    if batch.identity != id || batch.operationId == [] then Some(InvalidBatch)
    else if Contains(a, batch) then None
    else if Uses(a, batch.operationId) then Some(KeyReused)
    else if !idle then Some(PublicationInProgress)
    else if Violates(ViewAt(a, |a|), batch.changes) || !c.checksPass then Some(ConstraintViolation)
    else if c.bulk + 8 >= MAX_PAGE_BYTES then Some(EntryTooLarge)
    else if |a| >= MAX_SEQUENCE then Some(InvalidKey)
    else None
  }

  /** The body of a request accepted next after a history. */
  ghost predicate NextBody(a: seq<Body>, batch: Batch, c: Capture, b: Body) {
    && b.batch == batch && b.sequence == |a| + 1 && b.bulk == c.bulk
    && b.before == ViewAt(a, |a|) && Results(b.before, batch.changes, b.after)
  }

  /** The answer to a new request where nothing is pending, and the ledger after it. */
  ghost predicate Admits(id: Identity, l: Ledger, batch: Batch, c: Capture, r: Outcome<Entry>, n: Ledger) {
    match Refusal(id, l.applied, Idle(l.publication), batch, c)
    case Some(e) => r == Err(e) && n == l
    case None => r.Ok? && r.value == Sealed(r.value.body, Prepared) && NextBody(l.applied, batch, c, r.value.body)
                 && n == l.(pending := Some(Pending(r.value.body, Prepared)))
  }

  /** The answer to an operation id that the journal holds, or held, at a position. */
  predicate Repeats(l: Ledger, batch: Batch, i: nat, r: Outcome<Entry>)
    requires i < Length(l)
  {
    r == if i + 1 in l.missing then Err(HistoricalOperation)
         else if Full(l)[i].batch != batch then Err(KeyReused)
         else Ok(EntryAt(l, i + 1))
  }

  /** What a primary answers to a request, and its ledger after it. */
  ghost predicate Prepares(id: Identity, l: Ledger, batch: Batch, c: Capture, r: Outcome<Entry>, n: Ledger) {
    if batch.identity != id || batch.operationId == [] then r == Err(InvalidBatch) && n == l
    else if Uses(Full(l), batch.operationId) then
      n == l && forall i :: 0 <= i < Length(l) && Full(l)[i].batch.operationId == batch.operationId ==> Repeats(l, batch, i, r)
    else if l.pending.Some? then r == Err(if Idle(l.publication) then RecoveryRequired else PublicationInProgress) && n == l
    else Admits(id, l, batch, c, r, n)
  }

  lemma CaptureAdmits(l: Ledger, id: Identity, batch: Batch, c: Capture)
    requires l.pending.None? && Idle(l.publication) && batch.identity == id && batch.operationId != [] && !Uses(l.applied, batch.operationId)
    ensures Admits(id, l, batch, c, CaptureOn(l, batch, c).0, CaptureOn(l, batch, c).1)
  {
    hide Results, Violates;
    ExecuteMeans(ViewAt(l.applied, |l.applied|), batch.changes);
  }

  /** Every answer of prepare, stated by the request and the journal. */
  lemma PrepareAnswers(l: Ledger, id: Identity, batch: Batch, c: Capture)
    requires LedgerOk(id, l)
    ensures Prepares(id, l, batch, c, PrepareOn(l, Primary, id, batch, c).0, PrepareOn(l, Primary, id, batch, c).1)
  {
    hide CaptureOn, PublicationOk, Admits;
    var at, op := Position(Full(l), batch.operationId), batch.operationId;
    if at > 0 {
      assert Uses(Full(l), op);
      assert EntryAt(l, at).body == Full(l)[at - 1];
      assert forall i :: 0 <= i < Length(l) && Full(l)[i].batch.operationId == op ==> i == at - 1;
    } else if batch.identity == id && op != [] && l.pending.None? {
      assert Full(l) == l.applied;
      if Idle(l.publication) {
        CaptureAdmits(l, id, batch, c);
      } else {
        BusyRefuses(l, id, batch, c);
      }
    }
  }

  lemma BusyRefuses(l: Ledger, id: Identity, batch: Batch, c: Capture)
    requires !Idle(l.publication) && batch.identity == id && batch.operationId != [] && !Uses(l.applied, batch.operationId)
    ensures Admits(id, l, batch, c, Err(PublicationInProgress), l)
  {
  }

  // ---------------------------------------------------------------- what an answer means

  /** The row of a sequence is stored with this body. */
  predicate HoldsRow(l: Ledger, b: Body) {
    Present(l, b.sequence) && Full(l)[b.sequence - 1] == b
  }

  /** The row of an operation is stored. */
  ghost predicate Stores(l: Ledger, op: Text) {
    exists i: nat :: Present(l, i) && Full(l)[i - 1].batch.operationId == op
  }

  lemma StoresIff(l: Ledger, id: Identity, op: Text)
    requires LedgerOk(id, l)
    ensures Stores(l, op) <==> Position(Full(l), op) > 0 && Present(l, Position(Full(l), op))
    ensures forall i: nat :: Present(l, i) && Full(l)[i - 1].batch.operationId == op ==> i == Position(Full(l), op)
  {
    hide PublicationOk;
  }

  /** Staging succeeds exactly for a row that is stored already or is the next one and
      continues the view, and then the row is stored. */
  lemma StageMeans(l: Ledger, id: Identity, e: Entry)
    requires LedgerOk(id, l)
    ensures var (r, n) := StageOn(l, Secondary, id, e);
            && (r.Ok? <==> && ValidEntry(e, id) && FitsPage(e) && !l.transferring
                           && (HoldsRow(l, e.body) ||
                               (&& Idle(l.publication) && l.pending.None? && e.body.sequence == |l.applied| + 1 <= MAX_SEQUENCE
                                && e.body.before == ViewAt(l.applied, |l.applied|)
                                && e.body.batch.operationId != [] && !Uses(l.applied, e.body.batch.operationId))))
            && (r.Ok? ==> HoldsRow(n, e.body)) && (r.Err? || HoldsRow(l, e.body) ==> n == l)
  {
    hide ChainOk, PublicationOk;
    var n := StageOn(l, Secondary, id, e).1;
    if Present(l, e.body.sequence) {
      assert EntryAt(l, e.body.sequence).body == Full(l)[e.body.sequence - 1];
    } else if l.pending.None? {
      assert Full(l) == l.applied;
    }
    assert n != l ==> n.pending.Some? && Full(n) == l.applied + [e.body];
  }

  /** A decision succeeds exactly for a stored operation, and then that operation and nothing
      else changes: it can no longer be aborted. */
  lemma DecideMeans(l: Ledger, id: Identity, op: Text)
    requires LedgerOk(id, l)
    ensures var (r, n) := DecideOn(l, Primary, id, op);
            && (r.Ok? <==> Stores(l, op)) && (r.Err? ==> n == l)
            && (r.Ok? ==> && Full(n) == Full(l) && n == l.(pending := n.pending) && HoldsRow(n, r.value.body)
                          && r.value == EntryAt(n, r.value.body.sequence) && r.value.body.batch.operationId == op && r.value.body.sequence <= |Committed(n)|)
  {
    StoresIff(l, id, op);
    var at := Position(Full(l), op);
    if Stores(l, op) {
      var (r, n) := DecideOn(l, Primary, id, op);
      assert LinkOk(id, Full(l), at - 1);
      hide PublicationOk, ChainOk, Stores, Position, LedgerOk;
      assert EntryAt(l, at).body == Full(l)[at - 1];
    }
  }

  /** Applying succeeds exactly for a decision on a stored row, which on the primary is its
      own, and then the row is applied. */
  lemma ApplyMeans(l: Ledger, role: Role, id: Identity, d: Entry)
    requires LedgerOk(id, l)
    ensures var (r, n) := ApplyOn(l, role, id, d); var k := d.body.sequence;
            && (r.Ok? <==> && ValidEntry(d, id) && !d.state.Prepared? && !l.transferring && HoldsRow(l, d.body)
                           && (role == Primary ==> k <= |Committed(l)|))
            && (r.Ok? ==> HoldsRow(n, d.body) && k <= |n.applied| && n.applied == if k <= |l.applied| then l.applied else Full(l))
            && (r.Err? || k <= |l.applied| ==> n == l)
  {
    hide PublicationOk, ChainOk;
    var k, n := d.body.sequence, ApplyOn(l, role, id, d).1;
    if Present(l, k) {
      assert EntryAt(l, k).body == Full(l)[k - 1];
    }
    if n != l {
      SettleKeeps(l, role, id);
    }
  }

  /** An abort succeeds exactly unless the operation is stored and committed, and then nothing
      is pending under it; no other row changes. */
  lemma AbortMeans(l: Ledger, id: Identity, op: Text)
    requires LedgerOk(id, l)
    ensures var (r, n) := AbortOn(l, op);
            && (r.Ok? <==> !l.transferring && !exists i: nat :: Present(l, i) && i <= |Committed(l)| && Full(l)[i - 1].batch.operationId == op)
            && (r.Ok? ==> n == l.(pending := if l.pending.Some? && l.pending.value.body.batch.operationId == op then None else l.pending))
            && (r.Err? ==> n == l)
  {
    hide PublicationOk;
    StoresIff(l, id, op);
    if l.pending.Some? && l.pending.value.body.batch.operationId == op {
      assert Full(l)[|l.applied|].batch.operationId == op && Present(l, |l.applied| + 1);
    }
  }

  /** A confirmation succeeds exactly on a quiescent secondary at the given checkpoint, which
      is then its read marker. */
  lemma ConfirmMeans(l: Ledger, id: Identity, c: Checkpoint)
    ensures var (r, n) := ConfirmCheckpointOn(l, Secondary, id, c);
            && (r.Ok? <==> c == CheckpointAt(id, l.applied, |l.applied|) && l.pending.None? && !l.transferring)
            && n == if r.Ok? then l.(ready := Some(c)) else l
  {
  }

  /** A quarantine takes the read marker and the generation, and nothing else; a proposal
      bound to the former generation is refused from then on. */
  lemma QuarantineMeans(l: Ledger, id: Identity, g: nat, p: Proposal, bytes: nat)
    requires LedgerOk(id, l)
    ensures var (r, n) := QuarantineOn(l, Secondary, g);
            && r.Ok? && n.ready.None? && n.generation == g && SameJournal(l, n) && n.publication == l.publication && n.floor == l.floor
            && LedgerOk(id, n)
            && (p.secondaryGeneration == l.generation != g ==>
                  && CaptureBaseOn(n, Secondary, id, p, bytes) == (Err(StaleGeneration), n)
                  && ConfirmBaseOn(n, Secondary, id, p) == (Err(StaleGeneration), n)
                  && ActivateOn(n, Secondary, id, p) == (Err(StaleGeneration), n))
  {
    assert Full(QuarantineOn(l, Secondary, g).1) == Full(l);
  }

  /** A capture succeeds exactly for the proposal in the slot, or into a free slot for the
      present checkpoint of a quiescent node within the quota. */
  lemma CaptureBaseMeans(l: Ledger, role: Role, id: Identity, p: Proposal, bytes: nat)
    ensures var (r, n) := CaptureBaseOn(l, role, id, p, bytes); var v := ViewAt(l.applied, |l.applied|);
            && (r.Ok? <==> && Bound(l, role, id, p)
                           && (if l.publication.Some? then l.publication.value.proposal == p
                               else && !l.transferring && l.pending.None? && p.checkpoint == CheckpointAt(id, l.applied, |l.applied|)
                                    && |v.places| + |v.features| + |l.applied| <= 100_000 && bytes <= 268_435_456))
            && (r.Ok? ==> n.publication == Some(r.value) && r.value.proposal == p && (l.publication.None? ==> r.value.phase.Captured?))
            && (r.Err? || l.publication.Some? ==> n == l)
  {
  }

  /** An activation succeeds exactly for the confirmed record in the slot, once nothing is
      pending or the base is there already, and never moves the base back. */
  lemma ActivateMeans(l: Ledger, role: Role, id: Identity, p: Proposal)
    requires LedgerOk(id, l)
    ensures var (r, n) := ActivateOn(l, role, id, p); var k := p.checkpoint.sequence;
            && (r.Ok? <==> && Bound(l, role, id, p) && l.publication == Some(Record(p, Confirmed))
                           && (l.floor == Some(k) || (!l.transferring && l.pending.None?)))
            && (r.Ok? ==> n == l.(floor := Some(k)) && Floor(l) <= k) && (r.Err? ==> n == l)
  {
    hide ChainOk;
    if l.publication.Some? && l.floor == Some(p.checkpoint.sequence) {
      assert l == l.(floor := Some(p.checkpoint.sequence));
    }
  }

  // ---------------------------------------------------------------- operations lose nothing decided

  /** Decided and applied bodies, and the read marker, outlive the step. */
  predicate Grows(l: Ledger, n: Ledger) {
    Committed(l) <= Committed(n) && l.applied <= n.applied && (l.ready.Some? ==> n.ready.Some?)
  }

  lemma PrepareGrows(l: Ledger, role: Role, id: Identity, batch: Batch, c: Capture)
    requires LedgerOk(id, l)
    ensures Grows(l, PrepareOn(l, role, id, batch, c).1)
  {
    hide ChainOk, PublicationOk, Execute, Position, FitsPage;
  }

  lemma StageGrows(l: Ledger, role: Role, id: Identity, e: Entry)
    requires LedgerOk(id, l)
    ensures Grows(l, StageOn(l, role, id, e).1)
  {
  }

  lemma DecideGrows(l: Ledger, role: Role, id: Identity, op: Text)
    requires LedgerOk(id, l)
    ensures Grows(l, DecideOn(l, role, id, op).1)
  {
  }

  lemma ApplyGrows(l: Ledger, role: Role, id: Identity, d: Entry)
    requires LedgerOk(id, l)
    ensures Grows(l, ApplyOn(l, role, id, d).1)
  {
    var n := ApplyOn(l, role, id, d).1;
    if n != l {
      assert Committed(n) == n.applied == Full(l);
    }
  }

  lemma AbortGrows(l: Ledger, op: Text)
    ensures Grows(l, AbortOn(l, op).1)
  {
    var at := Position(Full(l), op);
    if 0 < at <= |l.applied| {
      assert Present(l, at) ==> EntryAt(l, at).state.Applied?;
    }
  }
}
