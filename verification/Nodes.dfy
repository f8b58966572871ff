/** One replica. Its methods read and write the tables; the ghost ledger says what the
    tables hold, and each method is proved to do to the tables what the corresponding
    function does to the ledger. */
module Nodes {
  import opened Basics
  import opened Reference
  import opened Ledgers
  import opened Tables

  // ---------------------------------------------------------------- table updates

  /** Changing markers alone leaves the rows a ledger asks for as they are. */
  lemma SameRows(log: map<nat, Entry>, l: Ledger, n: Ledger)
    requires RowsHold(log, l) && SameJournal(l, n)
    ensures RowsHold(log, n) && Full(n) == Full(l)
  {
    assert forall i: nat :: Present(n, i) <==> Present(l, i);
  }

  lemma WritePending(c: Database, id: Identity, l: Ledger, p: Pending, revision: nat)
    requires Represents(c, id, l) && LedgerOk(id, l.(pending := Some(p))) && |l.applied| + 1 == p.body.sequence
    ensures Represents(c.(log := c.log[p.body.sequence := Sealed(p.body, p.state)], revision := revision), id, l.(pending := Some(p)))
  {
    var n := l.(pending := Some(p));
    forall i: nat
      ensures Present(n, i) <==> Present(l, i) || i == p.body.sequence
    {
      if i == p.body.sequence {
        assert i !in l.missing;
      }
    }
  }

  lemma DropPending(c: Database, id: Identity, l: Ledger, revision: nat)
    requires Represents(c, id, l) && l.pending.Some? && LedgerOk(id, l.(pending := None))
    ensures Represents(c.(log := c.log - {Length(l)}, revision := revision), id, l.(pending := None))
  {
    var n := l.(pending := None);
    assert forall i: nat :: Present(n, i) <==> Present(l, i) && i != Length(l);
  }

  lemma AppliedRows(log: map<nat, Entry>, id: Identity, l: Ledger)
    requires LedgerOk(id, l) && RowsHold(log, l) && l.pending.Some?
    ensures RowsHold(log[Length(l) := Sealed(l.pending.value.body, Applied)], Settled(l))
  {
    var m := Settled(l);
    assert forall i: nat :: Present(m, i) <==> Present(l, i) || i == Length(l);
  }

  lemma AppliedReceipts(receipts: map<nat, Receipt>, a: seq<Body>, b: Body)
    requires ReceiptsHold(receipts, a)
    ensures ReceiptsHold(receipts[|a| + 1 := ReceiptOf(b)], a + [b])
  {
  }

  lemma AppliedMarkers(id: Identity, l: Ledger)
    requires LedgerOk(id, l) && l.pending.Some? && LedgerOk(id, Settled(l))
    ensures BaseOf(id, l) == BaseOf(id, Settled(l))
    ensures PublishedOf(id, l) == PublishedOf(id, Settled(l))
  {
    var m := Settled(l);
    PrefixSame(id, l.applied, m.applied, Floor(l));
    if l.publication.Some? {
      PrefixSame(id, l.applied, m.applied, l.publication.value.proposal.checkpoint.sequence);
    }
  }

  /** The tables after an apply: the row is Applied, its receipt is stored and the view is
      the recorded outcome. */
  function AppliedTables(c: Database, n: nat, b: Body): Database {
    c.(log := c.log[n := Sealed(b, Applied)], revision := c.revision + 1,
       receipts := c.receipts[n := ReceiptOf(b)], view := b.after)
  }

  lemma WriteApplied(c: Database, id: Identity, l: Ledger)
    requires Represents(c, id, l) && l.pending.Some? && LedgerOk(id, Settled(l))
    ensures Represents(AppliedTables(c, Length(l), l.pending.value.body), id, Settled(l))
  {
    AppliedRows(c.log, id, l);
    AppliedReceipts(c.receipts, l.applied, l.pending.value.body);
    AppliedMarkers(id, l);
  }

  lemma WriteReady(c: Database, id: Identity, l: Ledger, ready: Option<Checkpoint>)
    requires Represents(c, id, l)
    ensures Represents(c.(readiness := ready), id, l.(ready := ready))
  {
    SameRows(c.log, l, l.(ready := ready));
  }

  /** Insert or overwrite a journal row. The row's sequence may not belong to another
      operation, nor its operation to another sequence. */
  method WriteRow(c: Database, e: Entry) returns (r: Outcome<Database>)
    ensures r.Ok? <==>
              && 0 < e.body.sequence <= MAX_SEQUENCE && e.body.batch.operationId != [] && e.digest == Checksum(e.body)
              && forall i :: i in c.log ==> (i == e.body.sequence <==> c.log[i].body.batch.operationId == e.body.batch.operationId)
    ensures r.Ok? ==> r.value == c.(log := c.log[e.body.sequence := e], revision := c.revision + 1)
    ensures r.Err? && 0 < e.body.sequence <= MAX_SEQUENCE && e.body.batch.operationId != [] && e.digest == Checksum(e.body) ==> r.error == KeyReused
    ensures !(0 < e.body.sequence <= MAX_SEQUENCE && e.body.batch.operationId != [] && e.digest == Checksum(e.body)) ==> r == Err(InvalidKey)
  {
    var n, op := e.body.sequence, e.body.batch.operationId;
    if n == 0 || n > MAX_SEQUENCE || op == [] || e.digest != Checksum(e.body) {
      return Err(InvalidKey);
    }
    if n in c.log && c.log[n].body.batch.operationId != op {
      return Err(KeyReused);
    }
    if exists i :: i in c.log && i != n && c.log[i].body.batch.operationId == op {
      return Err(KeyReused);
    }
    r := Ok(c.(log := c.log[n := e], revision := c.revision + 1));
  }

  /** Store the receipt of an applied entry; an equal receipt already stored is fine. */
  method InsertReceipt(c: Database, e: Entry, ghost id: Identity, ghost l: Ledger) returns (r: Outcome<Database>)
    requires e.state.Applied? && ValidEntry(e, id)
    ensures Represents(c, id, l) && ReceiptOn(l, e.body.batch.operationId) == None && e.body.batch.operationId != []
            && |l.applied| < e.body.sequence <= MAX_SEQUENCE ==>
              r == Ok(c.(receipts := c.receipts[e.body.sequence := ReceiptOf(e.body)]))
    ensures r.Ok? ==> r.value == c.(receipts := r.value.receipts) && ReceiptOf(e.body) in r.value.receipts.Values
  {
    var x := ReceiptOf(e.body);
    if e.body.batch.operationId == [] || e.body.sequence == 0 || e.body.sequence > MAX_SEQUENCE {
      return Err(InvalidKey);
    }
    var old' := GetReceipt(c, e.body.batch.operationId, id, l);
    if old'.Err? {
      return Err(Reason(old'));
    }
    if old'.value.Some? {
      return if old'.value.value == x then Ok(c) else Err(ReceiptMismatch);
    }
    if e.body.sequence in c.receipts {
      return Err(ReceiptMismatch);
    }
    r := Ok(c.(receipts := c.receipts[e.body.sequence := x]));
    assert r.value.receipts[e.body.sequence] == x;
  }

  // ---------------------------------------------------------------- the node

  class Node {
    const role: Role
    const identity: Identity
    var db: Database
    ghost var ledger: Ledger

    ghost predicate Valid()
      reads this
    {
      Represents(db, identity, ledger)
    }

    /** A node opened on a missing path. */
    constructor (role: Role, identity: Identity, generation: nat)
      ensures Valid()
      ensures this.role == role && this.identity == identity
      ensures ledger == Ledger([], None, {}, None, None, None, generation, false)
    {
      this.role := role;
      this.identity := identity;
      db := Database(map[], EMPTY_VIEW, map[], None, None, None, generation, 0, false);
      ledger := Ledger([], None, {}, None, None, None, generation, false);
    }

    method Prepare(batch: Batch, capture: Capture) returns (r: Outcome<Entry>)
      requires Valid()
      modifies this
      ensures Valid()
      ensures (r, ledger) == PrepareOn(old(ledger), role, identity, batch, capture)
      ensures role == Primary ==> Prepares(identity, old(ledger), batch, capture, r, ledger)
    {
      PrepareAnswers(ledger, identity, batch, capture);
      hide Prepares;
      if role != Primary {
        return Err(WrongRole);
      }
      if batch.identity != identity || batch.operationId == [] {
        return Err(InvalidBatch);
      }
      var existing := ByOperation(db, batch.operationId, identity, ledger);
      if existing.Some? {
        var v := ValidateEntry(db, existing.value, identity, ledger);
        if v.Err? {
          return Err(Reason(v));
        }
        return if existing.value.body.batch == batch then Ok(existing.value) else Err(KeyReused);
      }
      var receipt := GetReceipt(db, batch.operationId, identity, ledger);
      if receipt.Err? {
        return Err(Reason(receipt));
      }
      if receipt.value.Some? {
        return Err(HistoricalOperation);
      }
      r := PrepareNew(batch, capture);
    }

    /** The request is in neither table: execute it in a rolled-back transaction and store
        the captured entry as the pending row. */
    method PrepareNew(batch: Batch, capture: Capture) returns (r: Outcome<Entry>)
      requires Valid() && role == Primary && batch.identity == identity && batch.operationId != []
      requires FindOn(ledger, batch.operationId) == None && ReceiptOn(ledger, batch.operationId) == None
      modifies this
      ensures Valid()
      ensures (r, ledger) == PrepareOn(old(ledger), role, identity, batch, capture)
    {
      NotFoundAnywhere(db, identity, ledger, batch.operationId);
      var head := JournalHead(db, identity, ledger);
      if head.Err? {
        return Err(Reason(head));
      }
      if db.published.Some? && !db.published.value.record.phase.Confirmed? {
        return Err(PublicationInProgress);
      }
      ResolvedIff(db, identity, ledger);
      if !Resolved(db) {
        return Err(RecoveryRequired);
      }
      PrepareKeeps(ledger, role, identity, batch, capture);
      r := CaptureAndStore(head.value.length + 1, batch, capture);
    }

    method CaptureAndStore(sequence: nat, batch: Batch, capture: Capture) returns (r: Outcome<Entry>)
      requires Valid() && ledger.pending.None? && sequence == |ledger.applied| + 1
      requires batch.operationId != [] && Position(Full(ledger), batch.operationId) == 0
      requires LedgerOk(identity, CaptureOn(ledger, batch, capture).1)
      modifies this
      ensures Valid()
      ensures (r, ledger) == CaptureOn(old(ledger), batch, capture)
    {
      var after := ExecuteAll(db.view, batch.changes);
      if after.None? || !capture.checksPass {
        return Err(ConstraintViolation);
      }
      var e := Sealed(Body(batch, sequence, db.view, after.value, capture.bulk), Prepared);
      if !FitsPage(e) {
        return Err(EntryTooLarge);
      }
      MissingRowsDiffer(identity, ledger, batch.operationId);
      var saved := StorePending(e);
      if saved.Err? {
        return Err(Reason(saved));
      }
      r := Ok(e);
    }

    /** Write the pending row, unless its key is out of range or its operation has a row. */
    method StorePending(e: Entry) returns (r: Outcome<()>)
      requires Valid() && ledger.pending.None? && e.state.Prepared? && e.digest == Checksum(e.body)
      requires e.body.sequence == |ledger.applied| + 1
      requires forall i :: i in ledger.missing ==> ledger.applied[i - 1].batch.operationId != e.body.batch.operationId
      requires KeyOk(e.body) && Position(Full(ledger), e.body.batch.operationId) == 0 ==>
                 LedgerOk(identity, ledger.(pending := Some(Pending(e.body, Prepared))))
      modifies this
      ensures Valid()
      ensures (r, ledger) ==
        if !KeyOk(e.body) then (Err(InvalidKey), old(ledger))
        else if Position(Full(old(ledger)), e.body.batch.operationId) > 0 then (Err(KeyReused), old(ledger))
        else (Ok(()), old(ledger).(pending := Some(Pending(e.body, Prepared))))
    {
      RowsOf(db, identity, ledger, e.body.batch.operationId);
      var saved := WriteRow(db, e);
      if saved.Err? {
        return Err(Reason(saved));
      }
      WritePending(db, identity, ledger, Pending(e.body, Prepared), db.revision + 1);
      db := saved.value;
      ledger := ledger.(pending := Some(Pending(e.body, Prepared)));
      r := Ok(());
    }

    /** Stage an entry of the primary's journal. The primary never reuses the operation id
        of a row that was deleted below the base. */
    method Stage(entry: Entry) returns (r: Outcome<()>)
      requires Valid()
      requires forall i :: i in ledger.missing ==> ledger.applied[i - 1].batch.operationId != entry.body.batch.operationId
      modifies this
      ensures Valid()
      ensures (r, ledger) == StageOn(old(ledger), role, identity, entry)
    {
      if role != Secondary {
        return Err(WrongRole);
      }
      if !ValidEntry(entry, identity) {
        return Err(MalformedEntry);
      }
      if !FitsPage(entry) {
        return Err(EntryTooLarge);
      }
      if db.transferring {
        return Err(TransferInProgress);
      }
      if entry.body.sequence in db.log {
        return if db.log[entry.body.sequence].digest == entry.digest then Ok(()) else Err(DivergentLog);
      }
      if db.published.Some? && !db.published.value.record.phase.Confirmed? {
        return Err(PublicationInProgress);
      }
      var head := JournalHead(db, identity, ledger);
      if head.Err? {
        return Err(Reason(head));
      }
      ResolvedIff(db, identity, ledger);
      if entry.body.sequence != head.value.length + 1 || !Resolved(db) {
        return Err(OutOfOrder);
      }
      if db.view != entry.body.before {
        return Err(BaseMismatch);
      }
      StageKeeps(ledger, role, identity, entry);
      r := StorePending(Sealed(entry.body, Prepared));
    }

    method Decide(op: Text) returns (r: Outcome<Entry>)
      requires Valid()
      modifies this
      ensures Valid()
      ensures (r, ledger) == DecideOn(old(ledger), role, identity, op)
    {
      if role != Primary {
        return Err(WrongRole);
      }
      var found := ByOperation(db, op, identity, ledger);
      if found.None? {
        return Err(UnknownOperation);
      }
      if !found.value.state.Prepared? {
        return Ok(found.value);
      }
      var e := found.value.(state := Decided);
      ghost var p := Pending(ledger.pending.value.body, Decided);
      DecideKeeps(ledger, role, identity, op);
      PendingKey(identity, ledger);
      WritePending(db, identity, ledger, p, db.revision + 1);
      db := db.(log := db.log[e.body.sequence := e], revision := db.revision + 1);
      ledger := ledger.(pending := Some(p));
      r := Ok(e);
    }

    /** Apply a decision to the pending row: view, row, receipt and read marker change in
        one transaction. */
    method Apply(decision: Entry) returns (r: Outcome<()>)
      requires Valid()
      modifies this
      ensures Valid()
      ensures (r, ledger) == ApplyOn(old(ledger), role, identity, decision)
    {
      if !ValidEntry(decision, identity) {
        return Err(MalformedEntry);
      }
      if decision.state.Prepared? {
        return Err(DecisionRequired);
      }
      if db.transferring {
        return Err(TransferInProgress);
      }
      var n := decision.body.sequence;
      if n !in db.log {
        return Err(NotStaged);
      }
      var local := db.log[n];
      if local.digest != decision.digest {
        return Err(DecisionMismatch);
      }
      if local.state.Applied? {
        var v := ValidateEntry(db, local, identity, ledger);
        return if v.Err? then Err(Reason(v)) else Ok(());
      }
      if role == Primary && !local.state.Decided? {
        return Err(NoDurableDecision);
      }
      PendingKey(identity, ledger);
      r := ApplyPending(local);
    }

    method ApplyPending(local: Entry) returns (r: Outcome<()>)
      requires Valid() && ledger.pending.Some? && local == EntryAt(ledger, Length(ledger))
      modifies this
      ensures Valid()
      ensures (r, ledger) == (Ok(()), Settle(old(ledger), role, identity))
    {
      PendingLinks(identity, ledger);
      PendingOwnsOperation(db, identity, ledger);
      SettledKeeps(ledger, identity);
      if db.view != local.body.before {
        return Err(BaseMismatch);
      }
      var verified := false;
      if role == Secondary {
        var v := VerifiedView(db, identity, ledger);
        if v.Err? {
          return Err(Reason(v));
        }
        verified := v.value.Some?;
      }
      var applied := local.(state := Applied);
      var row := WriteRow(db, applied);
      if row.Err? {
        return Err(Reason(row));
      }
      var receipt := InsertReceipt(db, applied, identity, ledger);
      if receipt.Err? {
        return Err(Reason(receipt));
      }
      var tx := row.value.(receipts := receipt.value.receipts, view := local.body.after);
      WriteApplied(db, identity, ledger);
      assert tx == AppliedTables(db, Length(ledger), local.body);
      ghost var l := Settled(ledger);
      if verified {
        var current := CurrentCheckpoint(tx, identity, false, l);
        if current.Err? {
          return Err(Reason(current));
        }
        WriteReady(tx, identity, l, Some(current.value));
        tx := tx.(readiness := Some(current.value));
        l := l.(ready := Some(current.value));
      }
      db := tx;
      ledger := l;
      r := Ok(());
    }

    method Abort(op: Text) returns (r: Outcome<()>)
      requires Valid()
      modifies this
      ensures Valid()
      ensures (r, ledger) == AbortOn(old(ledger), op)
    {
      if db.transferring {
        return Err(TransferInProgress);
      }
      var found := ByOperation(db, op, identity, ledger);
      if found.None? {
        return Ok(());
      }
      if !found.value.state.Prepared? {
        return Err(NotAbortable);
      }
      AbortKeeps(ledger, identity, op);
      PendingKey(identity, ledger);
      DropPending(db, identity, ledger, db.revision + 1);
      db := db.(log := db.log - {found.value.body.sequence}, revision := db.revision + 1);
      ledger := ledger.(pending := None);
      r := Ok(());
    }

    /** Local evidence that an operation was applied. Below the base the receipt stands
        alone, and the whole checkpoint is re-verified before it is trusted. */
    method GetReceiptOf(op: Text) returns (r: Outcome<Option<Receipt>>)
      requires Valid()
      ensures r == Ok(ReceiptOn(ledger, op))
    {
      var found := ByOperation(db, op, identity, ledger);
      if found.Some? {
        r := ValidateEntry(db, found.value, identity, ledger);
        return;
      }
      r := GetReceipt(db, op, identity, ledger);
      if r.Err? || r.value.None? {
        return;
      }
      BelowBase(db, identity, ledger, op);
      if db.base.None? || r.value.value.result.sequence > db.base.value.sequence {
        return Err(OrphanReceipt);
      }
      var current := CurrentCheckpoint(db, identity, false, ledger);
      if current.Err? {
        return Err(Reason(current));
      }
    }

    method CompletedResult(batch: Batch) returns (r: Outcome<Option<WriteResult>>)
      requires Valid()
      ensures r == CompletedOn(ledger, identity, batch)
    {
      if batch.identity != identity || batch.operationId == [] {
        return Err(InvalidBatch);
      }
      var receipt := GetReceiptOf(batch.operationId);
      if receipt.Err? {
        return Err(Reason(receipt));
      }
      if receipt.value.None? {
        return Ok(None);
      }
      if !Matches(receipt.value.value, batch) {
        return Err(KeyReused);
      }
      r := Ok(Some(receipt.value.value.result));
    }

    method Operation(op: Text) returns (r: Option<Entry>)
      requires Valid()
      ensures r == FindOn(ledger, op)
    {
      r := ByOperation(db, op, identity, ledger);
    }

    method Head() returns (r: Outcome<Head>)
      requires Valid()
      ensures r == Ok(HeadOn(db, identity, ledger))
    {
      r := JournalHead(db, identity, ledger);
    }

    method GetPage(expected: Head, after: nat, limit: nat) returns (r: Outcome<Page>)
      requires Valid()
      ensures r.Ok? ==> PageOk(r.value, expected, after, limit)
      ensures expected == HeadOn(db, identity, ledger) && CursorOk(expected, after, limit) ==>
                && r.Ok? && PageOn(identity, ledger, after, limit, r.value.entries)
                && (after < Length(ledger) ==> r.value.entries != [])
    {
      r := JournalPage(db, identity, expected, after, limit, ledger);
    }

    method GetCheckpoint() returns (r: Outcome<Checkpoint>)
      requires Valid()
      ensures r == CurrentOn(ledger, identity, true)
    {
      r := CurrentCheckpoint(db, identity, true, ledger);
    }

    method GetCheckpointAt(sequence: nat) returns (r: Outcome<Checkpoint>)
      requires Valid()
      ensures r == CalculateOn(ledger, identity, true, Some(sequence))
    {
      r := Calculate(db, identity, true, Some(sequence), ledger);
    }

    method AdmittedView() returns (r: Outcome<Option<View>>)
      requires Valid()
      ensures role == Primary ==> r == Err(WrongRole)
      ensures role == Secondary ==>
                r == Ok(if ledger.ready == Some(Current(identity, ledger)) then Some(ViewAt(ledger.applied, |ledger.applied|)) else None)
    {
      if role != Secondary {
        return Err(WrongRole);
      }
      r := VerifiedView(db, identity, ledger);
    }

    method ConfirmCheckpoint(expected: Checkpoint) returns (r: Outcome<()>)
      requires Valid()
      modifies this
      ensures Valid()
      ensures (r, ledger) == ConfirmCheckpointOn(old(ledger), role, identity, expected)
    {
      if role != Secondary || expected.identity != identity {
        return Err(WrongRole);
      }
      if db.transferring {
        return Err(TransferInProgress);
      }
      var current := CurrentCheckpoint(db, identity, true, ledger);
      if current.Err? {
        return Err(Reason(current));
      }
      if current.value != expected {
        return Err(CheckpointMismatch);
      }
      WriteReady(db, identity, ledger, Some(expected));
      db := db.(readiness := Some(expected));
      ledger := ledger.(ready := Some(expected));
      r := Ok(());
    }

    method Quarantine(newGeneration: nat) returns (r: Outcome<()>)
      requires Valid()
      modifies this
      ensures Valid()
      ensures (r, ledger) == QuarantineOn(old(ledger), role, newGeneration)
    {
      if role != Secondary {
        return Err(WrongRole);
      }
      WriteReady(db, identity, ledger, None);
      ghost var l := ledger.(ready := None);
      WriteGeneration(db.(readiness := None), identity, l, newGeneration);
      db := db.(readiness := None, generation := newGeneration);
      ledger := l.(generation := newGeneration);
      r := Ok(());
    }

    method BaseStatus() returns (r: Outcome<Option<Record>>)
      requires Valid()
      ensures r == Ok(ledger.publication)
    {
      r := ValidatePublication(db, identity, ledger);
    }

    predicate BindsTo(p: Proposal)
      reads this
    {
      && p.checkpoint.identity == identity && p.checkpoint.format == 1
      && db.generation == if role.Primary? then p.primaryGeneration else p.secondaryGeneration
    }

    /** Copy the current data and receipts into the published slot. */
    method CaptureBase(p: Proposal, bytes: nat) returns (r: Outcome<Record>)
      requires Valid()
      modifies this
      ensures Valid()
      ensures (r, ledger) == CaptureBaseOn(old(ledger), role, identity, p, bytes)
    {
      if !BindsTo(p) {
        return Err(StaleGeneration);
      }
      var slot := ValidatePublication(db, identity, ledger);
      if slot.Err? {
        return Err(Reason(slot));
      }
      if slot.value.Some? {
        return if slot.value.value.proposal == p then Ok(slot.value.value) else Err(SlotOccupied);
      }
      if db.transferring {
        return Err(TransferInProgress);
      }
      var current := CurrentCheckpoint(db, identity, true, ledger);
      if current.Err? {
        return Err(Reason(current));
      }
      if current.value != p.checkpoint {
        return Err(CheckpointMismatch);
      }
      ReceiptCount(db, identity, ledger);
      if |db.view.places| + |db.view.features| + |db.receipts| > MAX_ROWS || bytes > MAX_BYTES {
        return Err(QuotaExceeded);
      }
      var copied := ReceiptPrefix(db, |db.receipts|, identity, ledger);
      if copied.Err? {
        return Err(Reason(copied));
      }
      var record := Record(p, Captured);
      CaptureBaseKeeps(ledger, role, identity, p, bytes);
      WritePublication(db, identity, ledger, record);
      db := db.(published := Some(Published(record, db.view, copied.value)));
      ledger := ledger.(publication := Some(record));
      r := Ok(record);
    }

    method ConfirmBase(p: Proposal) returns (r: Outcome<Record>)
      requires Valid()
      modifies this
      ensures Valid()
      ensures (r, ledger) == ConfirmBaseOn(old(ledger), role, identity, p)
    {
      if !BindsTo(p) {
        return Err(StaleGeneration);
      }
      var slot := ValidatePublication(db, identity, ledger);
      if slot.Err? {
        return Err(Reason(slot));
      }
      if slot.value.None? {
        return Err(NotCaptured);
      }
      if slot.value.value.proposal != p {
        return Err(SlotOccupied);
      }
      var record := slot.value.value.(phase := Confirmed);
      ConfirmBaseKeeps(ledger, role, identity, p);
      WritePublication(db, identity, ledger, record);
      db := db.(published := Some(db.published.value.(record := record)));
      ledger := ledger.(publication := Some(record));
      r := Ok(record);
    }

    /** Make the confirmed checkpoint the base. The current checkpoint is recomputed on the
        new base and must not have changed. */
    method ActivatePublishedBase(p: Proposal) returns (r: Outcome<()>)
      requires Valid()
      modifies this
      ensures Valid()
      ensures (r, ledger) == ActivateOn(old(ledger), role, identity, p)
    {
      if !BindsTo(p) {
        return Err(StaleGeneration);
      }
      var slot := ValidatePublication(db, identity, ledger);
      if slot.Err? {
        return Err(Reason(slot));
      }
      if slot.value.None? {
        return Err(NotCaptured);
      }
      if slot.value.value != Record(p, Confirmed) {
        return Err(NotConfirmed);
      }
      if db.base == Some(p.checkpoint) {
        return Ok(());
      }
      if db.base.Some? && db.base.value.sequence >= p.checkpoint.sequence {
        return Err(BaseBackwards);
      }
      if db.transferring {
        return Err(TransferInProgress);
      }
      r := MoveBase(p.checkpoint);
    }

    method MoveBase(base: Checkpoint) returns (r: Outcome<()>)
      requires Valid() && Floor(ledger) <= base.sequence <= |ledger.applied|
      requires base == CheckpointAt(identity, ledger.applied, base.sequence)
      requires ledger.publication.Some? && ledger.publication.value.proposal.checkpoint == base
      modifies this
      ensures Valid()
      ensures (r, ledger) == if old(ledger).pending.Some? then (Err(Unresolved), old(ledger))
                             else (Ok(()), old(ledger).(floor := Some(base.sequence)))
    {
      var before := CurrentCheckpoint(db, identity, true, ledger);
      if before.Err? {
        return Err(Reason(before));
      }
      WriteBase(db, identity, ledger, base.sequence, db.revision + 1);
      var tx := db.(base := Some(base), revision := db.revision + 1);
      ghost var l := ledger.(floor := Some(base.sequence));
      var after := CurrentCheckpoint(tx, identity, true, l);
      if after != before {
        return Err(CheckpointMismatch);
      }
      db := tx;
      ledger := l;
      r := Ok(());
    }

    /** Physical removal of journal rows at or below the active base. */
    method DeleteRows(rows: set<nat>)
      requires Valid()
      modifies this
      ensures Valid()
      ensures ledger == CompactOn(old(ledger), rows)
      ensures forall i: nat :: Present(ledger, i) <==> old(Present(ledger, i)) && !(i in rows && i <= old(Floor(ledger)))
      ensures Full(ledger) == old(Full(ledger))
    {
      var gone := set i | i in rows && 1 <= i <= BaseFloor(db);
      DropRows(db, identity, ledger, rows, db.revision + 1);
      db := db.(log := db.log - gone, revision := db.revision + 1);
      ledger := CompactOn(ledger, rows);
    }
  }

  lemma WritePublication(c: Database, id: Identity, l: Ledger, record: Record)
    requires Represents(c, id, l) && LedgerOk(id, l.(publication := Some(record)))
    ensures var n := record.proposal.checkpoint.sequence;
            Represents(c.(published := Some(Published(record, ViewAt(l.applied, n), ReceiptsAt(l.applied, n)))), id, l.(publication := Some(record)))
  {
    SameRows(c.log, l, l.(publication := Some(record)));
  }

  lemma WriteBase(c: Database, id: Identity, l: Ledger, floor: nat, revision: nat)
    requires Represents(c, id, l) && Floor(l) <= floor <= |l.applied| && LedgerOk(id, l)
    requires l.publication.Some? && l.publication.value.proposal.checkpoint.sequence == floor
    ensures Represents(c.(base := Some(CheckpointAt(id, l.applied, floor)), revision := revision), id, l.(floor := Some(floor)))
  {
    SameRows(c.log, l, l.(floor := Some(floor)));
  }

  lemma DropRows(c: Database, id: Identity, l: Ledger, rows: set<nat>, revision: nat)
    requires Represents(c, id, l)
    ensures BaseFloor(c) == Floor(l)
    ensures Represents(c.(log := c.log - (set i | i in rows && 1 <= i <= Floor(l)), revision := revision), id, CompactOn(l, rows))
  {
    var n := CompactOn(l, rows);
    assert Full(n) == Full(l);
    assert forall i: nat :: Present(n, i) <==> Present(l, i) && !(i in rows && 1 <= i <= Floor(l));
  }

  lemma BelowBase(c: Database, id: Identity, l: Ledger, op: Text)
    requires Represents(c, id, l) && FindOn(l, op) == None && ReceiptOn(l, op).Some?
    ensures c.base.Some? && ReceiptOn(l, op).value.result.sequence <= c.base.value.sequence
  {
    var at := Position(Full(l), op);
    assert LinkOk(id, Full(l), at - 1) && Full(l)[at - 1] == l.applied[at - 1];
  }

  lemma WriteGeneration(c: Database, id: Identity, l: Ledger, g: nat)
    requires Represents(c, id, l)
    ensures Represents(c.(generation := g), id, l.(generation := g))
  {
    SameRows(c.log, l, l.(generation := g));
  }

  lemma PendingOwnsOperation(c: Database, id: Identity, l: Ledger)
    requires Represents(c, id, l) && l.pending.Some?
    ensures var b := l.pending.value.body;
            && b.batch.identity == id && b.batch.operationId != [] && ReceiptOn(l, b.batch.operationId) == None
            && forall i :: i in c.log ==> (i == Length(l) <==> c.log[i].body.batch.operationId == b.batch.operationId)
  {
    assert LinkOk(id, Full(l), |l.applied|);
    assert forall i :: i in c.log ==> c.log[i].body == Full(l)[i - 1];
    PositionUnique(Full(l), l.pending.value.body.batch.operationId, |l.applied|);
  }

  lemma PendingLinks(id: Identity, l: Ledger)
    requires LedgerOk(id, l) && l.pending.Some?
    ensures l.pending.value.body.before == ViewAt(l.applied, |l.applied|)
    ensures l.pending.value.body.sequence == Length(l)
  {
    assert LinkOk(id, Full(l), |l.applied|);
  }

  predicate KeyOk(b: Body) {
    b.sequence <= MAX_SEQUENCE && b.batch.operationId != []
  }

  lemma PendingKey(id: Identity, l: Ledger)
    requires LedgerOk(id, l) && l.pending.Some?
    ensures l.pending.value.body.sequence == Length(l) && l.pending.value.body.batch.operationId != []
  {
    assert LinkOk(id, Full(l), |l.applied|);
  }

  /** The error of a failed read. */
  function Reason<T>(r: Outcome<T>): Error {
    if r.Err? then r.error else DataMismatch
  }

  lemma RowsOf(c: Database, id: Identity, l: Ledger, op: Text)
    requires Represents(c, id, l)
    requires forall i :: i in l.missing ==> l.applied[i - 1].batch.operationId != op
    ensures Position(Full(l), op) == 0 <==> forall i :: i in c.log ==> c.log[i].body.batch.operationId != op
    ensures forall i :: i in c.log ==> i <= Length(l)
  {
    FindRow(c, id, l, op);
    var at := Position(Full(l), op);
    if at > 0 {
      assert forall i :: i in l.missing ==> Full(l)[i - 1] == l.applied[i - 1];
    }
  }

  lemma MissingRowsDiffer(id: Identity, l: Ledger, op: Text)
    requires LedgerOk(id, l) && Position(Full(l), op) == 0
    ensures forall i :: i in l.missing ==> l.applied[i - 1].batch.operationId != op
  {
    assert forall i :: i in l.missing ==> Full(l)[i - 1] == l.applied[i - 1];
  }

  lemma NotFoundAnywhere(c: Database, id: Identity, l: Ledger, op: Text)
    requires Represents(c, id, l) && FindOn(l, op) == None && ReceiptOn(l, op) == None
    ensures Position(Full(l), op) == 0
  {
    var at := Position(Full(l), op);
    assert at > |l.applied| ==> Present(l, at);
  }
}
