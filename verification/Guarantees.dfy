/** What clients of a pair may rely on across many calls: repeated requests, refused
    requests, and histories anchored on a base. */
module Guarantees {
  import opened Basics
  import opened Reference
  import opened Ledgers
  import opened Tables
  import opened Pairs
  import opened Runs
  import opened Comparison
  import opened Engine
  import opened Coordinators
  import Materialized

  // ---------------------------------------------------------------- sequences of requests

  lemma CommitKeeps(id: Identity, l: Ledger, batch: Batch, c: Capture)
    requires LedgerOk(id, l) && l.pending.None?
    ensures LedgerOk(id, CommitOn(l, id, batch, c).1) && CommitOn(l, id, batch, c).1.pending.None?
    ensures l.applied <= CommitOn(l, id, batch, c).1.applied
  {
    var n := CommitOn(l, id, batch, c).1;
    if n != l {
      PreparedRow(l, id, batch, c);
      PrepareKeeps(l, Primary, id, batch, c);
      SettledKeeps(PrepareOn(l, Primary, id, batch, c).1, id);
      assert n == Settled(PrepareOn(l, Primary, id, batch, c).1);
    }
  }

  datatype Request = Request(batch: Batch, capture: Capture)

  /** The answers to a list of requests, one commit after another. */
  ghost function Answers(id: Identity, l: Ledger, rs: seq<Request>): seq<Outcome<WriteResult>>
    requires LedgerOk(id, l) && l.pending.None?
    decreases |rs|
  {
    if rs == [] then []
    else
      CommitKeeps(id, l, rs[0].batch, rs[0].capture);
      var (r, n) := CommitOn(l, id, rs[0].batch, rs[0].capture);
      [r] + Answers(id, n, rs[1..])
  }

  // ---------------------------------------------------------------- repeated requests

  /** Once a request is answered, the same request is answered alike for ever and commits
      nothing more, and any other request under its operation id is refused. */
  lemma RetriesAnswerAlike(id: Identity, l: Ledger, batch: Batch, c: Capture, n: Ledger, other: Batch, d: Capture)
    requires LedgerOk(id, l) && l.pending.None? && CommitOn(l, id, batch, c).0.Ok?
    requires LedgerOk(id, n) && n.pending.None? && CommitOn(l, id, batch, c).1.applied <= n.applied
    ensures CommitOn(n, id, batch, d) == (CommitOn(l, id, batch, c).0, n)
    ensures other != batch && other.operationId == batch.operationId ==>
              CommitOn(n, id, other, d).0.Err? && CommitOn(n, id, other, d).1 == n
  {
    var at := AnsweredAt(id, l, batch, c);
    assert Full(n) == n.applied;
    assert LinkOk(id, Full(n), at - 1);
    PositionUnique(Full(n), batch.operationId, at - 1);
  }

  lemma AnsweredAt(id: Identity, l: Ledger, batch: Batch, c: Capture) returns (at: nat)
    requires LedgerOk(id, l) && l.pending.None? && CommitOn(l, id, batch, c).0.Ok?
    ensures 0 < at <= |CommitOn(l, id, batch, c).1.applied| && CommitOn(l, id, batch, c).1.applied[at - 1].batch == batch
    ensures CommitOn(l, id, batch, c).0.value == WriteResult(batch.operationId, at) && batch.operationId != []
  {
    assert Full(l) == l.applied;
    if CompletedOn(l, id, batch) == Ok(None) {
      PreparedRow(l, id, batch, c);
      at := |l.applied| + 1;
    } else {
      at := Position(Full(l), batch.operationId);
      assert LinkOk(id, Full(l), at - 1);
    }
  }

  // ---------------------------------------------------------------- refused requests

  /** A call that submitted at most one request. */
  ghost predicate Served(w: Pair, v: Pair, submitted: Option<Batch>) {
    if submitted.Some? then AtMost(Committed(w.p), Committed(v.p), submitted.value)
    else Committed(v.p) == Committed(w.p)
  }

  /** A request reported as not accepted is on neither copy, and no later recovery or other
      request brings it there: it would have to be submitted again. */
  lemma {:induction false} RefusedStaysOut(id: Identity, ws: seq<Pair>, calls: seq<Option<Batch>>, batch: Batch, i: nat)
    requires |ws| == |calls| + 1 && forall k :: 0 <= k < |ws| ==> Core(id, ws[k])
    requires forall k :: 0 <= k < |calls| ==> Served(ws[k], ws[k + 1], calls[k]) && calls[k] != Some(batch)
    requires !Contains(Committed(ws[0].p), batch) && i < |ws|
    ensures !Contains(Committed(ws[i].p), batch) && !Contains(ws[i].p.applied, batch) && !Contains(ws[i].s.applied, batch)
  {
    if i > 0 {
      RefusedStaysOut(id, ws, calls, batch, i - 1);
      assert Served(ws[i - 1], ws[i], calls[i - 1]);
      StillOut(Committed(ws[i - 1].p), Committed(ws[i].p), batch);
    }
    assert Journals(id, ws[i]);
    PrefixOut(Committed(ws[i].p), ws[i].p.applied, batch);
    PrefixOut(Committed(ws[i].p), ws[i].s.applied, batch);
  }

  lemma StillOut(a: seq<Body>, b: seq<Body>, batch: Batch)
    requires !Contains(a, batch) && a <= b && |b| <= |a| + 1 && (|b| > |a| ==> b[|a|].batch != batch)
    ensures !Contains(b, batch)
  {
    forall k | 0 <= k < |b|
      ensures b[k].batch != batch
    {
      if k < |a| {
        assert b[k] == a[k];
      }
    }
  }

  lemma PrefixOut(a: seq<Body>, b: seq<Body>, batch: Batch)
    requires !Contains(a, batch) && b <= a
    ensures !Contains(b, batch)
  {
    assert forall k :: 0 <= k < |b| ==> b[k] == a[k];
  }

  // ---------------------------------------------------------------- anchoring

  /** The ledger once its checkpoint at k is the base and some rows at or below it are gone. */
  function Anchored(l: Ledger, k: nat, rows: set<nat>): Ledger {
    CompactOn(l.(floor := Some(k)), rows)
  }

  predicate SameButBase(l: Ledger, n: Ledger) {
    n.applied == l.applied && n.pending == l.pending && n.publication == l.publication
  }

  /** Anchoring is transparent: the checkpoint, the journal length, every receipt and the
      answers to any list of later requests are those of the full history. */
  lemma AnchoringIsTransparent(id: Identity, l: Ledger, k: nat, rows: set<nat>, rs: seq<Request>)
    requires LedgerOk(id, l) && l.pending.None? && Floor(l) <= k <= |l.applied|
    requires l.publication.Some? ==> k <= l.publication.value.proposal.checkpoint.sequence
    ensures LedgerOk(id, Anchored(l, k, rows)) && BaseOf(id, Anchored(l, k, rows)) == Some(CheckpointAt(id, l.applied, k))
    ensures CurrentOn(Anchored(l, k, rows), id, true) == CurrentOn(l, id, true)
    ensures Length(Anchored(l, k, rows)) == Length(l)
    ensures forall op: Text :: ReceiptOn(Anchored(l, k, rows), op) == ReceiptOn(l, op)
    ensures Answers(id, Anchored(l, k, rows), rs) == Answers(id, l, rs)
  {
    var n := Anchored(l, k, rows);
    assert Full(n) == Full(l);
    AnswersAlike(id, l, n, rs);
  }

  lemma {:induction false} AnswersAlike(id: Identity, l: Ledger, n: Ledger, rs: seq<Request>)
    requires LedgerOk(id, l) && LedgerOk(id, n) && l.pending.None? && SameButBase(l, n)
    ensures Answers(id, n, rs) == Answers(id, l, rs)
    decreases |rs|
  {
    if rs != [] {
      var batch, c := rs[0].batch, rs[0].capture;
      CommitAlike(id, l, n, batch, c);
      CommitKeeps(id, l, batch, c);
      CommitKeeps(id, n, batch, c);
      AnswersAlike(id, CommitOn(l, id, batch, c).1, CommitOn(n, id, batch, c).1, rs[1..]);
    }
  }

  lemma CommitAlike(id: Identity, l: Ledger, n: Ledger, batch: Batch, c: Capture)
    requires LedgerOk(id, l) && LedgerOk(id, n) && l.pending.None? && SameButBase(l, n)
    ensures CommitOn(n, id, batch, c).0 == CommitOn(l, id, batch, c).0
    ensures SameButBase(CommitOn(l, id, batch, c).1, CommitOn(n, id, batch, c).1)
  {
    assert Full(n) == Full(l) == l.applied;
    var at := Position(Full(l), batch.operationId);
    assert CompletedOn(n, id, batch) == CompletedOn(l, id, batch);
    assert CompletedOn(l, id, batch) == Ok(None) ==> at == 0;
  }

  // ---------------------------------------------------------------- a new secondary

  /** A secondary that recovery refuses for lying below the primary's base rejoins once a
      materialized transfer has installed a checkpoint of the primary's history on it. */
  lemma SnapshotRejoins(id: Identity, w: Pair, a: seq<Body>, generation: nat)
    requires Core(id, w) && a <= w.p.applied && Floor(w.p) <= |a| && Unused(w, generation)
    ensures Core(id, w.(s := Materialized.Installed(a, generation)))
    ensures Reachable(w.p, Materialized.Installed(a, generation))
  {
    var s := Materialized.Installed(a, generation);
    assert Full(s) == a <= Full(w.p);
    PrefixChainOk(id, a, Full(w.p));
  }
}
