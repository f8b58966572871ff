/** Fail-closed write admission over a pair, and what its failure reports promise. */
module Coordinators {
  import opened Basics
  import opened Reference
  import opened Ledgers
  import opened Tables
  import opened Nodes
  import opened Pairs
  import opened Runs
  import opened Comparison
  import opened Engine

  datatype Cause = RecoveryNeeded | PeerUnavailable | Synchronized | Expired | BadRequest

  datatype Capabilities = Capabilities(readable: bool, writable: bool, cause: Cause)

  datatype Verdict = NotAccepted | Unknown

  datatype WriteFailure = WriteFailure(statusCode: nat, operationId: Text, outcome: Verdict, retrySameOperationId: bool, cause: Cause)

  const VERIFICATION_MILLIS: nat := 1000

  // ---------------------------------------------------------------- what a client is told

  /** The journal holds, or held, another request under the operation id. */
  ghost predicate Conflicts(l: Ledger, batch: Batch) {
    exists i :: 0 <= i < Length(l) && Full(l)[i].batch.operationId == batch.operationId && Full(l)[i].batch != batch
  }

  ghost predicate Unacceptable(id: Identity, l: Ledger, batch: Batch) {
    batch.identity != id || batch.operationId == [] || Conflicts(l, batch)
  }

  function Refused(op: Text): WriteFailure {
    WriteFailure(400, op, NotAccepted, false, BadRequest)
  }

  function Busy(op: Text, outcome: Verdict): WriteFailure {
    WriteFailure(503, op, outcome, true, PeerUnavailable)
  }

  /** How a primary's answer to a new request is passed on. */
  function Passed<T>(op: Text, e: Outcome<T>): Result<T, WriteFailure> {
    match e
    case Ok(x) => Ok(x)
    case Err(e) => Err(if e == ConstraintViolation then Refused(op) else Busy(op, NotAccepted))
  }

  /** The answer to an acceptable request where both copies have applied a history, and what
      is committed then. */
  ghost predicate Settles(id: Identity, a: seq<Body>, batch: Batch, c: Capture, r: Result<WriteResult, WriteFailure>, b: seq<Body>) {
    match Refusal(id, a, true, batch, c)
    case Some(e) => r == Passed(batch.operationId, Err(e)) && b == a
    case None => r.Ok? && Obeys(id, a, true, batch, c, Ok(r.value), b)
  }

  /** The answer to any request over a healthy link, and what is committed then. */
  ghost predicate Replies(id: Identity, l: Ledger, reachable: bool, batch: Batch, c: Capture, r: Result<WriteResult, WriteFailure>, b: seq<Body>) {
    if Unacceptable(id, l, batch) then r == Err(Refused(batch.operationId)) && b == Committed(l)
    else if !reachable || !Idle(l.publication) then
      r == Err(Busy(batch.operationId, if Uses(Committed(l), batch.operationId) then Unknown else NotAccepted)) && b == Committed(l)
    else Settles(id, Committed(l), batch, c, r, b)
  }

  /** What is looked up about a request shows every conflict. */
  lemma ConflictShows(id: Identity, l: Ledger, batch: Batch)
    requires LedgerOk(id, l) && batch.identity == id && batch.operationId != []
    ensures Conflicts(l, batch) <==>
              || (FindOn(l, batch.operationId).Some? && FindOn(l, batch.operationId).value.body.batch != batch)
              || (ReceiptOn(l, batch.operationId).Some? && !Matches(ReceiptOn(l, batch.operationId).value, batch))
  {
    var op := batch.operationId;
    var at := Position(Full(l), op);
    if at > 0 {
      var b := Full(l)[at - 1];
      assert LinkOk(id, Full(l), at - 1);
      assert b.batch == batch <==> b.batch.changes == batch.changes;
      assert forall i :: 0 <= i < Length(l) && Full(l)[i].batch.operationId == op ==> i == at - 1;
      assert at > |l.applied| ==> Present(l, at);
      FoundAt(l, op, at - 1);
      MatchesIff(b, batch);
      hide Position, LedgerOk, Matches;
    }
  }

  lemma MatchesIff(b: Body, batch: Batch)
    requires b.batch.operationId == batch.operationId != [] && 0 < b.sequence <= MAX_SEQUENCE && b.batch.identity == batch.identity
    ensures Matches(ReceiptOf(b), batch) <==> b.batch == batch
  {
  }

  /** A request with a matching receipt is answered from it. */
  lemma RepeatSettles(id: Identity, l: Ledger, batch: Batch, c: Capture)
    requires LedgerOk(id, l) && l.pending.None? && CompletedOn(l, id, batch).Ok? && CompletedOn(l, id, batch).value.Some?
    ensures Settles(id, l.applied, batch, c, Ok(CompletedOn(l, id, batch).value.value), l.applied)
  {
    assert Full(l) == l.applied;
    var at := Position(Full(l), batch.operationId);
    assert l.applied[at - 1].batch.operationId == batch.operationId;
    UsedOnce(l, id, batch, at - 1);
    hide LedgerOk, CompletedOn, Position;
    assert Contains(l.applied, batch);
  }

  /** Not every request that a commit would accept is accepted: an attempt that was only
      prepared holds its operation id until the next recovery, and another request under that
      id is refused as a conflict. */
  lemma AbandonedIdIsRefused(id: Identity)
    ensures var first, second := Batch(id, [1], []), Batch(id, [1], [PutPlace([], [])]);
            var p := Fresh(1, 2).p.(pending := Some(Pending(Body(first, 1, EMPTY_VIEW, EMPTY_VIEW, 0), Prepared)));
            var w := Pair(p, Fresh(1, 2).s);
            && Core(id, w) && Reachable(w.p, w.s) && Idle(w.p.publication)
            && Refusal(id, Committed(w.p), true, second, Capture(0, true)).None?
            && Unacceptable(id, w.p, second)
  {
    var first, second := Batch(id, [1], []), Batch(id, [1], [PutPlace([], [])]);
    var p := Fresh(1, 2).p.(pending := Some(Pending(Body(first, 1, EMPTY_VIEW, EMPTY_VIEW, 0), Prepared)));
    assert Full(p)[0].batch == first;
    assert LinkOk(id, Full(p), 0);
    assert first.changes != second.changes;
    assert !second.changes[0].PutFeature?;
  }

  /** The primary's unsettled row was prepared for another request under the operation id. */
  predicate Contested(l: Ledger, batch: Batch) {
    && l.pending.Some? && l.pending.value.state.Prepared?
    && l.pending.value.body.batch.operationId == batch.operationId && l.pending.value.body.batch != batch
  }

  /** When that happens, exactly: where both copies can be reached and no publication is half
      way, a request that a commit accepts is accepted if and only if its id is not contested. */
  lemma AcceptedUnlessContested(id: Identity, l: Ledger, batch: Batch, c: Capture, r: Result<WriteResult, WriteFailure>, b: seq<Body>)
    requires LedgerOk(id, l) && Idle(l.publication) && Refusal(id, Committed(l), true, batch, c).None?
    requires Replies(id, l, true, batch, c, r, b)
    ensures r.Ok? <==> !Contested(l, batch)
  {
    ConflictsIff(id, l, batch);
    hide LedgerOk, Conflicts, Contains, Uses, Violates, Obeys;
  }

  lemma ConflictsIff(id: Identity, l: Ledger, batch: Batch)
    requires LedgerOk(id, l) && (Contains(Committed(l), batch) || !Uses(Committed(l), batch.operationId))
    ensures Conflicts(l, batch) <==> Contested(l, batch)
  {
    hide PublicationOk;
    var n := |Committed(l)|;
    assert forall i :: 0 <= i < n ==> Committed(l)[i] == Full(l)[i];
    assert forall i :: 0 <= i < n && Full(l)[i].batch.operationId == batch.operationId ==> Full(l)[i].batch == batch;
    if Contested(l, batch) {
      assert Full(l)[|l.applied|].batch != batch;
    }
  }

  /** The answer to a new request, passed on, settles it. */
  lemma FreshSettles(id: Identity, l: Ledger, batch: Batch, c: Capture)
    requires LedgerOk(id, l) && l.pending.None? && CompletedOn(l, id, batch) == Ok(None) && Idle(l.publication)
    ensures match Passed(batch.operationId, PrepareOn(l, Primary, id, batch, c).0)
            case Err(f) => Settles(id, l.applied, batch, c, Err(f), l.applied)
            case Ok(e) => Settles(id, l.applied, batch, c, Ok(WriteResult(batch.operationId, |l.applied| + 1)), l.applied + [e.body])
  {
    FreshAnswers(l, id, batch, c);
    assert !Contains(l.applied, batch);
    hide LedgerOk, PrepareOn, CompletedOn, NextBody, Uses, Contains, Violates;
  }

  /** No conflict stays no conflict once the primary has settled its last row. */
  lemma ReconciledAgrees(id: Identity, l: Ledger, batch: Batch)
    requires LedgerOk(id, Reconciled(l)) && !Unacceptable(id, l, batch)
    ensures CompletedOn(Reconciled(l), id, batch).Ok?
  {
    hide PublicationOk;
    var n := Reconciled(l);
    assert Full(n) == Committed(l);
    var at := Position(Full(n), batch.operationId);
    if at > 0 {
      assert Full(n)[at - 1] == Full(l)[at - 1];
      assert LinkOk(id, Full(n), at - 1);
    }
  }

  // ---------------------------------------------------------------- lookups

  /** What the primary shows about an operation whose request is committed. */
  ghost predicate Shows(id: Identity, l: Ledger, batch: Batch) {
    && batch.identity == id && batch.operationId != [] && Position(Committed(l), batch.operationId) > 0
    && (FindOn(l, batch.operationId).Some? ==> FindOn(l, batch.operationId).value.body.batch == batch)
    && (ReceiptOn(l, batch.operationId).Some? ==> Matches(ReceiptOn(l, batch.operationId).value, batch))
  }

  lemma CommittedShows(id: Identity, l: Ledger, batch: Batch)
    requires LedgerOk(id, l)
    ensures Contains(Committed(l), batch) ==> Shows(id, l, batch)
  {
    if Contains(Committed(l), batch) {
      var i :| 0 <= i < |Committed(l)| && Committed(l)[i].batch == batch;
      CommittedRowShows(id, l, i);
    }
  }

  lemma CommittedRowShows(id: Identity, l: Ledger, i: nat)
    requires LedgerOk(id, l) && i < |Committed(l)|
    ensures Shows(id, l, Committed(l)[i].batch)
  {
    hide PublicationOk, Position, Matches, FindOn, ReceiptOn, DistinctOps;
    var b := Committed(l)[i];
    assert Full(l)[i] == b;
    assert LinkOk(id, Full(l), i);
    PositionUnique(Full(l), b.batch.operationId, i);
    CommittedPosition(l, b.batch.operationId, i);
    FoundAt(l, b.batch.operationId, i);
    OwnReceiptMatches(b);
  }

  /** What a node answers about an operation it holds at a position. */
  lemma FoundAt(l: Ledger, op: Text, i: nat)
    requires i < Length(l) && Position(Full(l), op) == i + 1
    ensures FindOn(l, op).Some? ==> FindOn(l, op).value.body == Full(l)[i]
    ensures ReceiptOn(l, op).Some? ==> ReceiptOn(l, op).value == ReceiptOf(Full(l)[i])
  {
    hide Position;
  }

  lemma OwnReceiptMatches(b: Body)
    requires b.batch.operationId != [] && 0 < b.sequence <= MAX_SEQUENCE
    ensures Matches(ReceiptOf(b), b.batch)
  {
  }

  lemma CommittedPosition(l: Ledger, op: Text, i: nat)
    requires i < |Committed(l)| && Committed(l)[i].batch.operationId == op
    ensures Position(Committed(l), op) > 0
  {
  }

  class Coordinator {
    const primary: Node
    const replica: Node
    var capabilities: Capabilities
    var verifiedAt: Option<nat>

    ghost predicate Valid()
      reads this, primary, replica
    {
      Attached(primary, replica) && primary.role == Primary
    }

    ghost predicate Live()
      reads this, primary, replica
    {
      Paired(primary, replica)
    }

    ghost function State(): Pair
      reads this, primary, replica
    {
      World(primary, replica)
    }

    constructor (primary: Node, replica: Node)
      requires Attached(primary, replica) && primary.role == Primary
      ensures Valid() && capabilities == Capabilities(true, false, RecoveryNeeded) && verifiedAt == None
      ensures this.primary == primary && this.replica == replica
    {
      this.primary := primary;
      this.replica := replica;
      capabilities := Capabilities(true, false, RecoveryNeeded);
      verifiedAt := None;
    }

    /** A coordinator needs the fixed primary. */
    static method New(primary: Node, replica: Node) returns (r: Outcome<Coordinator>)
      requires Attached(primary, replica)
      ensures r.Ok? <==> primary.role == Primary
      ensures r.Ok? ==> fresh(r.value) && r.value.primary == primary && r.value.replica == replica && r.value.Valid()
    {
      if primary.role != Primary {
        return Err(WrongRole);
      }
      var c := new Coordinator(primary, replica);
      r := Ok(c);
    }

    /** What was last observed. Write permission lapses one second after it was verified. */
    function Report(now: nat): (c: Capabilities)
      requires verifiedAt.Some? ==> verifiedAt.value <= now
      reads this
      ensures c.writable <==> capabilities.writable && verifiedAt.Some? && now < verifiedAt.value + VERIFICATION_MILLIS
      ensures c.cause == if capabilities.writable && !c.writable then Expired else capabilities.cause
      ensures c.readable == capabilities.readable
    {
      if capabilities.writable && (verifiedAt.None? || now - verifiedAt.value >= VERIFICATION_MILLIS)
      then capabilities.(writable := false, cause := Expired)
      else capabilities
    }

    /** Recover the pair. Writes are admitted only after a complete recovery with no
        publication half way. */
    method Reconcile(healthy: bool, now: nat) returns (r: Outcome<nat>)
      requires Valid()
      modifies this, primary, replica
      ensures Valid() && capabilities.writable == r.Ok? && capabilities.cause == (if r.Ok? then Synchronized else PeerUnavailable)
      ensures healthy ==> capabilities.readable
      ensures r.Err? ==> verifiedAt == old(verifiedAt)
      ensures r.Ok? ==> Live() && Converged(old(primary.ledger), State()) && Idle(primary.ledger.publication) && verifiedAt == Some(now)
      ensures r.Ok? ==> replica.ledger.ready == Some(Current(replica.identity, replica.ledger))
      ensures old(Live()) ==> Live() && Kept(primary.identity, old(State()), State())
      ensures !old(Live()) ==> r.Err? && unchanged(primary) && unchanged(replica)
      ensures healthy && old(Live()) ==>
                (r.Ok? <==> old(Reachable(primary.ledger, replica.ledger)) && Idle(old(primary.ledger.publication)))
    {
      hide RowsHold, ReceiptsHold, LedgerOk, Core, Leads;
      var lost := Lost(healthy);
      capabilities := Capabilities(!lost, false, PeerUnavailable);
      r := Recover(primary, replica, healthy);
      if r.Err? {
        return;
      }
      if primary.db.published.Some? && !primary.db.published.value.record.phase.Confirmed? {
        return Err(PublicationInProgress);
      }
      capabilities := Capabilities(capabilities.readable, true, Synchronized);
      verifiedAt := Some(now);
    }

    /** Classify a failure: it is reported as not accepted only when the primary shows
        neither a decision nor a receipt for the operation. */
    method Unavailable(op: Text, healthy: bool) returns (f: WriteFailure)
      requires Valid()
      modifies this
      ensures Valid() && capabilities == old(capabilities).(writable := false, cause := PeerUnavailable) && State() == old(State())
      ensures f == Busy(op, f.outcome)
      ensures f.outcome == NotAccepted ==> Position(Committed(primary.ledger), op) == 0
      ensures healthy && Position(Committed(primary.ledger), op) == 0 ==> f.outcome == NotAccepted
    {
      OperationCommitted(primary.identity, primary.ledger, op);
      hide RowsHold, ReceiptsHold, MarkersHold, LedgerOk, Core, FindOn, ReceiptOn, Position, Committed, Reachable, Full;
      capabilities := capabilities.(writable := false, cause := PeerUnavailable);
      var lost := Lost(healthy);
      var entry := primary.Operation(op);
      var receipt := primary.GetReceiptOf(op);
      var outcome := if !lost && receipt == Ok(None) && (entry.None? || entry.value.state.Prepared?) then NotAccepted else Unknown;
      f := WriteFailure(503, op, outcome, true, PeerUnavailable);
    }

    /** Prepare a new request. A failure here leaves it uncommitted. */
    method Propose(batch: Batch, capture: Capture, healthy: bool) returns (r: Result<Entry, WriteFailure>)
      requires Valid() && Live() && InStep(State())
      requires CompletedOn(primary.ledger, primary.identity, batch) == Ok(None)
      modifies this, primary
      ensures Valid() && Live() && Leads(primary.identity, old(State()), State())
      ensures Committed(primary.ledger) == primary.ledger.applied == old(primary.ledger.applied)
      ensures r.Ok? ==> primary.ledger.pending == Some(Pending(r.value.body, Prepared)) && r.value == Sealed(r.value.body, Prepared)
      ensures r.Ok? ==> r.value.body.batch == batch && r.value.body.sequence == |primary.ledger.applied| + 1
      ensures r.Ok? ==> StageOn(replica.ledger, Secondary, replica.identity, r.value).0 == Ok(())
      ensures healthy ==> r == Passed(batch.operationId, PrepareOn(old(primary.ledger), Primary, primary.identity, batch, capture).0)
    {
      hide Represents, LedgerOk, Core, Contains, Position, CompletedOn, PrepareOn, StageOn, Leads, Full, Reachable, Committed, Settles, AtMost, Uses;
      NewRequest(this, batch, capture);
      var e := PrepareLocal(primary, replica, batch, capture, healthy);
      if e == Err(ConstraintViolation) {
        var i := Invalid(batch.operationId);
        return Err(i);
      }
      if e.Err? {
        var u := Unavailable(batch.operationId, healthy);
        return Err(u);
      }
      r := Ok(e.value);
    }

    /** The request path once the pair is in step. Any failure after the decision was
        attempted is reported unknown. */
    method Submit(batch: Batch, capture: Capture, healthy: bool) returns (r: Result<WriteResult, WriteFailure>, ghost attempted: bool)
      requires Valid() && Live() && InStep(State())
      requires CompletedOn(primary.ledger, primary.identity, batch) == Ok(None)
      modifies this, primary, replica
      ensures Valid() && Live() && Leads(primary.identity, old(State()), State())
      ensures AtMost(old(primary.ledger.applied), Committed(primary.ledger), batch)
      ensures r.Ok? ==> Answered(State(), batch, r.value)
      ensures r.Err? && r.error.outcome == NotAccepted ==> !attempted && !Contains(Committed(primary.ledger), batch)
      ensures healthy && old(Idle(primary.ledger.publication)) ==> Settles(primary.identity, old(primary.ledger.applied), batch, capture, r, Committed(primary.ledger))
    {
      attempted := false;
      ghost var w := State();
      hide Settles, AtMost, Answered, Committed, Full, Represents, LedgerOk, Core, Contains, CompletedOn, PrepareOn, StageOn, Leads, Reachable, Position, Uses;
      NewRequest(this, batch, capture);
      var e := Propose(batch, capture, healthy);
      if e.Err? {
        return Err(e.error), attempted;
      }
      ghost var x := State();
      r, attempted := Deliver(batch, healthy, e.value);
      LeadsOn(primary.identity, w, x, State());
    }

    /** Stage a prepared row, and once it is staged carry it through. */
    method Deliver(batch: Batch, healthy: bool, e: Entry) returns (r: Result<WriteResult, WriteFailure>, ghost attempted: bool)
      requires Valid() && Live() && primary.ledger.applied == replica.ledger.applied && replica.ledger.pending.None?
      requires primary.ledger.pending == Some(Pending(e.body, Prepared)) && e == Sealed(e.body, Prepared) && e.body.batch == batch
      requires StageOn(replica.ledger, Secondary, replica.identity, e).0 == Ok(()) && e.body.sequence == |primary.ledger.applied| + 1
      modifies this, primary, replica
      ensures Valid() && Live() && Leads(primary.identity, old(State()), State())
      ensures AtMost(old(primary.ledger.applied), Committed(primary.ledger), batch)
      ensures r.Ok? ==> Answered(State(), batch, r.value)
      ensures r.Err? && r.error.outcome == NotAccepted ==> !attempted && Committed(primary.ledger) == old(primary.ledger.applied)
      ensures healthy ==> r == Ok(WriteResult(batch.operationId, old(|primary.ledger.applied|) + 1))
      ensures healthy ==> Committed(primary.ledger) == old(primary.ledger.applied) + [e.body]
    {
      attempted := false;
      ghost var w := State();
      NothingMore(primary.ledger.applied, batch);
      assert Committed(primary.ledger) == primary.ledger.applied;
      hide AtMost, Represents, LedgerOk, Core, Position, StageOn, Leads, Answered, Committed;
      var staged := StageNew(primary, replica, e, healthy);
      ghost var x := State();
      if staged.Err? {
        var u := Unavailable(batch.operationId, healthy);
        return Err(u), attempted;
      }
      attempted := true;
      r := Conclude(batch, healthy, e.body);
      LeadsOn(primary.identity, w, x, State());
    }

    /** Decide, apply on the secondary, apply here, and answer from the receipt. */
    method Conclude(batch: Batch, healthy: bool, ghost b: Body) returns (r: Result<WriteResult, WriteFailure>)
      requires Valid() && Live() && primary.ledger.pending == Some(Pending(b, Prepared)) && b.batch == batch
      requires Full(replica.ledger) == Full(primary.ledger) && primary.ledger.applied == replica.ledger.applied
      modifies this, primary, replica
      ensures Valid() && Live() && Leads(primary.identity, old(State()), State())
      ensures AtMost(old(primary.ledger.applied), Committed(primary.ledger), batch)
      ensures r.Ok? ==> Answered(State(), batch, r.value)
      ensures r.Err? ==> r.error.outcome == Unknown
      ensures healthy ==> r == Ok(WriteResult(batch.operationId, old(|primary.ledger.applied|) + 1))
      ensures healthy ==> Committed(primary.ledger) == old(primary.ledger.applied) + [b]
    {
      ghost var w := State();
      hide Represents, LedgerOk, Core, Position, Leads, Committed, Full, Reachable, AtMost, Answered;
      CommittedNext(primary.ledger.applied, b);
      var decision := DecideLocal(primary, replica, b, batch.operationId, healthy);
      if decision.Err? {
        var u := Unavailable(batch.operationId, healthy);
        return Err(u.(outcome := Unknown));
      }
      ghost var x := State();
      r := CarryOut(batch, healthy, decision.value, b);
      LeadsOn(primary.identity, w, x, State());
    }

    /** Apply a decision on both copies and answer from the receipt. */
    method CarryOut(batch: Batch, healthy: bool, decision: Entry, ghost b: Body) returns (r: Result<WriteResult, WriteFailure>)
      requires Valid() && Live() && primary.ledger.pending == Some(Pending(b, Decided)) && b.batch == batch
      requires decision == EntryAt(primary.ledger, Length(primary.ledger))
      requires Full(replica.ledger) == Full(primary.ledger) && primary.ledger.applied == replica.ledger.applied
      modifies this, primary, replica
      ensures Valid() && Live() && Leads(primary.identity, old(State()), State())
      ensures Committed(primary.ledger) == old(primary.ledger.applied) + [b]
      ensures r.Ok? ==> Answered(State(), batch, r.value)
      ensures r.Err? ==> r.error.outcome == Unknown
      ensures healthy ==> r == Ok(WriteResult(batch.operationId, old(|primary.ledger.applied|) + 1))
    {
      ghost var a := primary.ledger.applied;
      PendingSequence(primary.identity, primary.ledger);
      LastIsPresent(a, b);
      hide Represents, LedgerOk, Core, Position, Leads, Committed, Full, Reachable, Answered;
      var done := Complete(primary, replica, decision, batch.operationId, healthy, b);
      if done.Err? {
        var u := Unavailable(batch.operationId, healthy);
        return Err(u);
      }
      AnsweredNext(State(), a, b);
      r := Ok(done.value);
    }

    method Invalid(op: Text) returns (f: WriteFailure)
      ensures f == Refused(op)
    {
      f := WriteFailure(400, op, NotAccepted, false, BadRequest);
    }

    /** What the primary alone can say about a request: None when it cannot be read, else
        whether the request can be accepted. */
    method Judge(batch: Batch, healthy: bool) returns (v: Option<bool>)
      requires Valid()
      ensures v == Some(false) ==> !Contains(Committed(primary.ledger), batch)
      ensures v == Some(true) ==> batch.identity == primary.identity && batch.operationId != []
      ensures healthy ==> v == Some(!Unacceptable(primary.identity, primary.ledger, batch))
    {
      if batch.identity == primary.identity && batch.operationId != [] {
        ConflictShows(primary.identity, primary.ledger, batch);
      }
      CommittedShows(primary.identity, primary.ledger, batch);
      hide Represents, LedgerOk, Core, FindOn, ReceiptOn, Matches, Contains, Position, Committed, Full, Conflicts;
      var lost := Lost(healthy);
      if lost {
        return None;
      }
      var previous := primary.Operation(batch.operationId);
      if batch.identity != primary.identity || batch.operationId == [] || (previous.Some? && previous.value.body.batch != batch) {
        return Some(false);
      }
      lost := Lost(healthy);
      var receipt := primary.GetReceiptOf(batch.operationId);
      if lost || receipt.Err? {
        return None;
      }
      v := Some(receipt.value.None? || Matches(receipt.value.value, batch));
    }

    /** Answer a request. Success means it is applied on both copies at the named sequence.
        A report that it was not accepted means it is not committed and its decision was
        never attempted. Whatever happens, nothing but this request is committed. */
    method Write(batch: Batch, capture: Capture, healthy: bool, now: nat) returns (r: Result<WriteResult, WriteFailure>, ghost attempted: bool)
      requires Valid()
      modifies this, primary, replica
      ensures Valid()
      ensures old(Live()) ==> Live() && Leads(primary.identity, old(State()), State())
      ensures AtMost(old(Committed(primary.ledger)), Committed(primary.ledger), batch)
      ensures r.Ok? ==> Live() && Answered(State(), batch, r.value)
      ensures r.Err? && r.error.outcome == NotAccepted ==> !attempted && !Contains(Committed(primary.ledger), batch)
      ensures healthy ==> Replies(primary.identity, old(primary.ledger), old(Live() && Reachable(primary.ledger, replica.ledger)), batch, capture, r, Committed(primary.ledger))
    {
      hide Settles;
      attempted := false;
      if Live() {
        LeadsNowhere(primary.identity, State());
      }
      var v := Judge(batch, healthy);
      if v == Some(false) {
        var i := Invalid(batch.operationId);
        return Err(i), attempted;
      }
      if v.None? {
        var u := Unavailable(batch.operationId, healthy);
        return Err(u), attempted;
      }
      r, attempted := WriteValid(batch, capture, healthy, now);
    }

    method WriteValid(batch: Batch, capture: Capture, healthy: bool, now: nat) returns (r: Result<WriteResult, WriteFailure>, ghost attempted: bool)
      requires Valid()
      modifies this, primary, replica
      ensures Valid()
      ensures old(Live()) ==> Live() && Leads(primary.identity, old(State()), State())
      ensures AtMost(old(Committed(primary.ledger)), Committed(primary.ledger), batch)
      ensures r.Ok? ==> Live() && Answered(State(), batch, r.value)
      ensures r.Err? && r.error.outcome == NotAccepted ==> !attempted && !Contains(Committed(primary.ledger), batch)
      ensures healthy && !old(Unacceptable(primary.identity, primary.ledger, batch)) ==>
                Replies(primary.identity, old(primary.ledger), old(Live() && Reachable(primary.ledger, replica.ledger)), batch, capture, r, Committed(primary.ledger))
    {
      hide Represents, Core, Position, Leads, CompletedOn, Settles, Conflicts;
      attempted := false;
      ghost var w := State();
      var reconciled := Reconcile(healthy, now);
      if reconciled.Err? {
        var u := Unavailable(batch.operationId, healthy);
        return Err(u), attempted;
      }
      ghost var x := State();
      LiveIsOk(this);
      if !Unacceptable(primary.identity, w.p, batch) {
        ReconciledAgrees(primary.identity, w.p, batch);
      }
      r, attempted := WriteInStep(batch, capture, healthy);
      LeadsOn(primary.identity, w, x, State());
    }

    method WriteInStep(batch: Batch, capture: Capture, healthy: bool) returns (r: Result<WriteResult, WriteFailure>, ghost attempted: bool)
      requires Valid() && Live() && InStep(State())
      modifies this, primary, replica
      ensures Valid() && Live() && Leads(primary.identity, old(State()), State())
      ensures AtMost(old(primary.ledger.applied), Committed(primary.ledger), batch)
      ensures r.Ok? ==> Answered(State(), batch, r.value)
      ensures r.Err? && r.error.outcome == NotAccepted ==> !attempted && !Contains(Committed(primary.ledger), batch)
      ensures healthy && old(Idle(primary.ledger.publication)) && old(CompletedOn(primary.ledger, primary.identity, batch)).Ok? ==>
                Settles(primary.identity, old(primary.ledger.applied), batch, capture, r, Committed(primary.ledger))
    {
      attempted := false;
      LeadsNowhere(primary.identity, State());
      LiveIsOk(this);
      assert Committed(primary.ledger) == primary.ledger.applied;
      hide Settles, Represents, LedgerOk, Core, Leads, CompletedOn, Position, Contains;
      var lost := Lost(healthy);
      var completed := primary.CompletedResult(batch);
      if lost || completed.Err? {
        var u := Unavailable(batch.operationId, healthy);
        return Err(u), attempted;
      }
      if completed.value.Some? {
        CompletedAnswers(primary.identity, State(), batch);
        RepeatSettles(primary.identity, primary.ledger, batch, capture);
        return Ok(completed.value.value), attempted;
      }
      r, attempted := Submit(batch, capture, healthy);
    }
  }

  /** Where a new request starts from. */
  lemma NewRequest(c: Coordinator, batch: Batch, capture: Capture)
    requires c.Live() && InStep(c.State()) && CompletedOn(c.primary.ledger, c.primary.identity, batch) == Ok(None)
    ensures var l, id := c.primary.ledger, c.primary.identity;
            && LedgerOk(id, l) && Committed(l) == l.applied && !Contains(l.applied, batch) && Position(l.applied, batch.operationId) == 0
            && AtMost(l.applied, l.applied, batch)
            && (Idle(l.publication) ==>
                  match Passed(batch.operationId, PrepareOn(l, Primary, id, batch, capture).0)
                  case Err(f) => Settles(id, l.applied, batch, capture, Err(f), l.applied)
                  case Ok(e) => Settles(id, l.applied, batch, capture, Ok(WriteResult(batch.operationId, |l.applied| + 1)), l.applied + [e.body]))
  {
    LiveIsOk(c);
    var l, id := c.primary.ledger, c.primary.identity;
    NewIsNotCommitted(id, l, batch);
    FreshAnswers(l, id, batch, capture);
    if Idle(l.publication) {
      FreshSettles(id, l, batch, capture);
    }
    hide LedgerOk, Core, Settles, PrepareOn, CompletedOn, Contains, Represents;
  }

  lemma PendingSequence(id: Identity, l: Ledger)
    requires LedgerOk(id, l) && l.pending.Some?
    ensures l.pending.value.body.sequence == |l.applied| + 1
  {
    assert LinkOk(id, Full(l), |l.applied|);
  }

  lemma LiveIsOk(c: Coordinator)
    requires c.Live()
    ensures LedgerOk(c.primary.identity, c.primary.ledger)
  {
  }

  lemma LastIsPresent(a: seq<Body>, b: Body)
    ensures Position(a + [b], b.batch.operationId) > 0 && a <= a + [b] && (a + [b])[|a|] == b
  {
    assert (a + [b])[|a|] == b;
  }

  lemma NothingMore(a: seq<Body>, batch: Batch)
    ensures AtMost(a, a, batch)
  {
  }

  lemma CommittedNext(a: seq<Body>, b: Body)
    ensures AtMost(a, a, b.batch) && AtMost(a, a + [b], b.batch)
  {
  }

  lemma AnsweredNext(w: Pair, a: seq<Body>, b: Body)
    requires InStep(w) && w.p.applied == a + [b] && b.sequence == |a| + 1
    ensures Answered(w, b.batch, WriteResult(b.batch.operationId, |a| + 1))
  {
  }

  lemma NewIsNotCommitted(id: Identity, l: Ledger, batch: Batch)
    requires LedgerOk(id, l) && l.pending.None? && CompletedOn(l, id, batch) == Ok(None)
    ensures !Contains(Committed(l), batch)
  {
    assert Full(l) == l.applied == Committed(l);
  }

  lemma OperationCommitted(id: Identity, l: Ledger, op: Text)
    requires LedgerOk(id, l)
    ensures Position(Committed(l), op) == 0 <==>
              ReceiptOn(l, op).None? && (FindOn(l, op).None? || FindOn(l, op).value.state.Prepared?)
  {
    var at := Position(Full(l), op);
    if at > 0 {
      assert at > |l.applied| ==> Present(l, at);
      if at <= |Committed(l)| {
        assert Committed(l)[at - 1] == Full(l)[at - 1];
      } else {
        assert forall i :: 0 <= i < |Committed(l)| ==> Committed(l)[i] == Full(l)[i];
      }
    } else {
      assert forall i :: 0 <= i < |Committed(l)| ==> Committed(l)[i] == Full(l)[i];
    }
  }
}
