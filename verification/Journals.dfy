/** The transition journal: operations over the stored tables, each proved to do to them
    what the corresponding function does to the slots they hold. */
module Journals {
  import opened Basics
  import opened Transitions
  import opened Replays
  import opened TransitionLaws
  import opened TransitionAnswers

  /** UPDATE one history row. */
  function Replaced(rows: seq<Row>, r: Record): (n: seq<Row>)
    ensures |n| == |rows|
    ensures forall i :: 0 <= i < |rows| ==> n[i] == if rows[i].revision == r.request.revision then Row(r.request.revision, r) else rows[i]
  {
    seq(|rows|, i requires 0 <= i < |rows| => if rows[i].revision == r.request.revision then Row(r.request.revision, r) else rows[i])
  }

  lemma {:induction false} RowsBelow(initial: nat, slots: seq<Slot>)
    ensures forall i :: 0 <= i < |HistoryRows(initial, slots)| ==> HistoryRows(initial, slots)[i].revision < initial + |slots|
  {
    if slots != [] {
      RowsBelow(initial, Init(slots));
    }
  }

  /** Replacing the open head's row is replacing the last slot. */
  lemma ReplacedHead(db: Store, scope: Scope, slots: seq<Slot>, r: Record)
    requires Holds(db, scope, slots) && Chained(scope, slots) && !Done(Effective(slots)) && r.request == Effective(slots).value.request
    ensures slots != [] && Holds(db.(history := Replaced(db.history, r)), scope, SetHead(slots, r))
  {
    hide ValidRequest, Chains;
    OpenHeadIsLast(scope, slots);
    RowsBelow(scope.initial, Init(slots));
    LastRevision(scope, slots);
    Snoc(Init(slots), Decided(r, None));
    var n := SetHead(slots, r);
    assert Replaced(db.history, r) == HistoryRows(scope.initial, n);
    assert AbortRows(scope.initial, n) == AbortRows(scope.initial, slots);
  }

  lemma AppendedDecision(db: Store, scope: Scope, slots: seq<Slot>, r: Record)
    requires Holds(db, scope, slots) && r.request.revision == scope.initial + |slots|
    ensures Holds(db.(history := db.history + [Row(r.request.revision, r)], head := r.request.revision), scope, slots + [Decided(r, None)])
  {
    Snoc(slots, Decided(r, None));
    assert AbortRows(scope.initial, slots + [Decided(r, None)]) == AbortRows(scope.initial, slots);
  }

  function Max(a: nat, b: nat): nat {
    if a < b then b else a
  }

  /** Recording an abort: its row, the format marker, and the head if it took a revision. */
  lemma RecordedAbort(db: Store, scope: Scope, slots: seq<Slot>, x: AbortRecord)
    requires Holds(db, scope, slots) && Lawful(scope, slots) && AbortOk(scope, x.abort.abortedRevision, x)
    requires AbortShape(scope, slots, x.abort).None?
    ensures Holds(db.(aborts := db.aborts + [AbortRow(x.abort.abortedRevision, x)], format := 2, head := Max(scope.initial + |slots| - 1, x.abort.abortedRevision)),
                  scope, Cancelled(scope, slots, x))
  {
    hide Chained, NoRevival, ValidAbort;
    var n := Cancelled(scope, slots, x);
    if x.abort.decided {
      CancelHead(scope, slots, x);
      Snoc(Init(slots), Last(n));
      assert HistoryRows(scope.initial, n) == HistoryRows(scope.initial, slots);
      LastRevision(scope, slots);
    } else {
      CancelNext(scope, slots, x);
      Snoc(slots, Last(n));
      assert HistoryRows(scope.initial, n) == HistoryRows(scope.initial, slots);
    }
  }

  lemma LastRevision(scope: Scope, slots: seq<Slot>)
    requires Chained(scope, slots) && slots != [] && Last(slots).Decided?
    ensures Last(slots).record.request.revision == scope.initial + |slots| - 1
  {
  }

  /** The abort cancels the request. */
  predicate Aborts(a: AbortRecord, q: Request) {
    a.abort.request == DigestOf(q) && a.abort.requestId == q.id
  }

  class Journal {
    const scope: Scope
    var db: Store
    ghost var slots: seq<Slot>

    ghost predicate Valid()
      reads this
    {
      scope.initial > 0 && Holds(db, scope, slots) && Lawful(scope, slots)
    }

    constructor (scope: Scope)
      requires ValidScope(scope)
      ensures Valid() && this.scope == scope && slots == []
    {
      this.scope := scope;
      db := Store(scope, 1, scope.initial - 1, [], []);
      slots := [];
    }

    /** Read under the caller's trust: what is found is what the slots say, or an error when
        a replay would not accept them. */
    method Load(trust: Trust) returns (r: Answer<History>)
      requires Valid()
      ensures r == if Readable(scope, trust, slots) then Ok(HistoryOf(scope, slots)) else Err(Unreadable)
    {
      assert db.format == 1 || db.format == 2;
      hide Holds, NoRevival, Chained, AbortsOk, TokensOk;
      ghost var found;
      r, found := Read(db, scope, trust, slots);
    }

    method Decide(q: Request, token: Token, now: nat, trust: Trust, policy: Policy) returns (r: Answer<Handle>)
      requires Valid()
      modifies this
      ensures Valid()
      ensures (r, slots) == DecideOn(scope, old(slots), trust, q, token, now, policy)
    {
      hide Holds, Chained, NoRevival, Readable, HistoryRows, AbortRows, Effective, LastCompleted, Ids;
      DecideKeeps(scope, slots, trust, q, token, now, policy);
      if !ValidRequest(q) {
        return Err(InvalidRequest);
      }
      var old' := Load(trust);
      if old'.Err? {
        return Err(Unreadable);
      }
      var h := old'.value;
      if !policy.continuity {
        return Err(PolicyRefused);
      }
      if h.head.Some? && h.head.value.request == q {
        return if h.head.value.token == token then Ok(HandleOf(h.head.value, trust)) else Err(Conflict);
      }
      if FindAbort(h.aborts, q.revision).Some? {
        return Err(RevisionAborted);
      }
      if q.id in h.ids || CancelledId(h.aborts, q.id) {
        return Err(DuplicateRequest);
      }
      if !Chains(scope, h.head, Next(scope, h), q) {
        return Err(ChainMismatch);
      }
      if Issuable(token, trust, q, now).None? {
        return Err(TokenRefused);
      }
      if !policy.prepared || !policy.continuityAgain {
        return Err(PolicyRefused);
      }
      var record := Record(q, token, Acks(false, false), None);
      AppendedDecision(db, scope, slots, record);
      db := db.(history := db.history + [Row(q.revision, record)], head := q.revision);
      slots := slots + [Decided(record, None)];
      r := Ok(HandleOf(record, trust));
    }

    method Acknowledge(d: Handle, m: Participant, trust: Trust, policy: Policy) returns (r: Answer<()>)
      requires Valid()
      modifies this
      ensures Valid()
      ensures (r, slots) == AcknowledgeOn(scope, old(slots), trust, d, m, policy)
      ensures r.Ok? ==> Acknowledged(old(slots), slots, d.request, m)
    {
      AcknowledgeMeans(scope, slots, trust, d, m, policy);
      hide Acknowledged, Flag, Holds, Chained, NoRevival, HistoryRows, AbortRows, Effective, LastCompleted, Ids, AbortsOk, TokensOk;
      AcknowledgeKeeps(scope, slots, trust, d, m, policy);
      var loaded := Load(trust);
      if loaded.Err? {
        return Err(Unreadable);
      }
      var h := loaded.value;
      if FindAbort(h.aborts, d.request.revision).Some? {
        return Err(RevisionAborted);
      }
      if h.head.None? {
        return Err(Missing);
      }
      var e := h.head.value;
      if e.request != d.request || e.token != d.token {
        return Err(NotCurrent);
      }
      if !policy.continuity {
        return Err(PolicyRefused);
      }
      if m != e.request.primary && m != e.request.secondary {
        return Err(MemberMismatch);
      }
      if (if m == e.request.primary then e.acks.primary else e.acks.secondary) {
        return Ok(());
      }
      if !policy.applied || !policy.continuityAgain {
        return Err(PolicyRefused);
      }
      OpenHeadIsLast(scope, slots);
      ReplacedHead(db, scope, slots, Acked(e, m));
      db := db.(history := Replaced(db.history, Acked(e, m)));
      slots := SetHead(slots, Acked(e, m));
      r := Ok(());
    }

    method Complete(d: Handle, id: Id, trust: Trust, policy: Policy) returns (r: Answer<()>)
      requires Valid()
      modifies this
      ensures Valid()
      ensures (r, slots) == CompleteOn(scope, old(slots), trust, d, id, policy)
    {
      hide Holds, Chained, NoRevival, HistoryRows, AbortRows, Effective, LastCompleted, Ids, AbortsOk, TokensOk;
      CompleteKeeps(scope, slots, trust, d, id, policy);
      if id == 0 {
        return Err(ZeroCompletion);
      }
      var loaded := Load(trust);
      if loaded.Err? {
        return Err(Unreadable);
      }
      var h := loaded.value;
      if FindAbort(h.aborts, d.request.revision).Some? {
        return Err(RevisionAborted);
      }
      if h.head.None? {
        return Err(Missing);
      }
      var e := h.head.value;
      if e.request != d.request || e.token != d.token || e.acks != Acks(true, true) {
        return Err(EvidenceMissing);
      }
      if !policy.continuity {
        return Err(PolicyRefused);
      }
      if e.completion.Some? {
        return if e.completion.value == id then Ok(()) else Err(CompletionConflict);
      }
      ReplacedHead(db, scope, slots, e.(completion := Some(id)));
      db := db.(history := Replaced(db.history, e.(completion := Some(id))));
      slots := SetHead(slots, e.(completion := Some(id)));
      r := Ok(());
    }

    method Cancel(a: Abort, token: Token, now: nat, trust: Trust, policy: Policy) returns (r: Answer<AbortRecord>)
      requires Valid()
      modifies this
      ensures Valid()
      ensures (r, slots) == AbortOn(scope, old(slots), trust, a, token, now, policy)
    {
      hide Holds, Chained, NoRevival, Readable, HistoryRows, AbortRows, Effective, LastCompleted, Ids, ValidBinding;
      AbortKeeps(scope, slots, trust, a, token, now, policy);
      if !ValidAbort(a) {
        return Err(InvalidRequest);
      }
      var loaded := Load(trust);
      if loaded.Err? {
        return Err(Unreadable);
      }
      var h := loaded.value;
      if a.binding != scope.binding {
        return Err(ScopeMismatch);
      }
      if h.head.Some? && !policy.continuity {
        return Err(PolicyRefused);
      }
      var known := FindAbort(h.aborts, a.abortedRevision);
      if known.Some? {
        if known.value.abort != a || known.value.token != token {
          return Err(Conflict);
        }
        return if h.head.Some? && !policy.continuityAgain then Err(PolicyRefused) else Ok(known.value);
      }
      if h.head.Some? && h.head.value.request.revision == a.abortedRevision {
        if !Cancels(a, h.head.value) {
          return Err(TargetMismatch);
        }
      } else {
        if a.decided || a.abortedRevision != h.lastRevision + 1 {
          return Err(TargetMismatch);
        }
        if !Done(h.head) {
          return Err(OpenDecision);
        }
      }
      if |h.aborts| >= MAX_ABORT_ROWS {
        return Err(RowLimit);
      }
      if !policy.abortApplicable {
        return Err(PolicyRefused);
      }
      var certificate := AbortIssuable(token, trust, a, now);
      if certificate.None? {
        return Err(TokenRefused);
      }
      if h.head.Some? && !policy.continuityAgain {
        return Err(PolicyRefused);
      }
      var x := AbortRecord(2, a, token, certificate.value);
      RecordedAbort(db, scope, slots, x);
      db := db.(aborts := db.aborts + [AbortRow(a.abortedRevision, x)], format := 2, head := Max(h.lastRevision, a.abortedRevision));
      slots := Cancelled(scope, slots, x);
      r := Ok(x);
    }

    /** Proof that the effective head is exactly this request and is complete. Only this
        value may reopen writes. */
    method FetchCompleted(q: Request, trust: Trust, policy: Policy) returns (r: Answer<Handle>)
      requires Valid()
      ensures r.Ok? <==> && Readable(scope, trust, slots) && policy.continuity && Effective(slots).Some?
                         && Effective(slots).value.request == q && Effective(slots).value.completion.Some?
      ensures r.Ok? ==> r.value == HandleOf(Effective(slots).value, trust) && r.value.acks == Acks(true, true)
    {
      hide Holds, Chained, NoRevival, HistoryRows, AbortRows, LastCompleted, Ids, AbortsOk, TokensOk, Effective;
      CompleteMeansAcknowledged(scope, slots);
      var loaded := Load(trust);
      if loaded.Err? {
        return Err(Unreadable);
      }
      var e := loaded.value.head;
      if e.None? {
        return Err(Missing);
      }
      if e.value.request != q {
        return Err(NotCurrent);
      }
      if !policy.continuity {
        return Err(PolicyRefused);
      }
      if e.value.acks != Acks(true, true) || e.value.completion.None? {
        return Err(EvidenceMissing);
      }
      r := Ok(HandleOf(e.value, trust));
    }

    /** The abort that cancelled a request, found by the request alone and never by a
        revision. A readable journal holds at most one. */
    method FetchAbort(q: Request, trust: Trust, policy: Policy) returns (r: Answer<AbortRecord>)
      requires Valid()
      ensures r.Ok? <==> && ValidRequest(q) && Readable(scope, trust, slots) && (Effective(slots).Some? ==> policy.continuity)
                         && exists i :: 0 <= i < |db.aborts| && Aborts(db.aborts[i].record, q)
      ensures r.Ok? ==> Aborts(r.value, q) && exists i :: 0 <= i < |db.aborts| && db.aborts[i].record == r.value
      ensures r == Err(Missing) ==> forall i :: 0 <= i < |db.aborts| ==> !Aborts(db.aborts[i].record, q)
      ensures Readable(scope, trust, slots) ==> forall i, j :: 0 <= i < j < |db.aborts| ==> db.aborts[i].record.abort.requestId != db.aborts[j].record.abort.requestId
    {
      hide Chained, NoRevival, HistoryRows, AbortRows, LastCompleted, Ids, TokensOk, Effective;
      if !ValidRequest(q) {
        return Err(InvalidRequest);
      }
      var loaded := Load(trust);
      if loaded.Err? {
        return Err(Unreadable);
      }
      var rows, i := loaded.value.aborts, 0;
      assert Readable(scope, trust, slots) ==> forall i, j :: 0 <= i < j < |db.aborts| ==> Differ(db.aborts[i], db.aborts[j]);
      while i < |rows| && !Aborts(rows[i].record, q)
        invariant i <= |rows|
        invariant forall k :: 0 <= k < i ==> !Aborts(rows[k].record, q)
      {
        i := i + 1;
      }
      if i == |rows| {
        return Err(Missing);
      }
      if loaded.value.head.Some? && !policy.continuity {
        return Err(PolicyRefused);
      }
      r := Ok(rows[i].record);
    }
  }

  lemma CompleteMeansAcknowledged(scope: Scope, slots: seq<Slot>)
    requires Chained(scope, slots)
    ensures Effective(slots).Some? && Effective(slots).value.completion.Some? ==> Effective(slots).value.acks == Acks(true, true)
  {
    if Effective(slots).Some? {
      var k := EffectiveAt(slots);
      ChainedAt(scope, slots, k);
    }
  }
}
