/** Reading a transition journal: both tables are re-validated in one merge by revision. */
module Replays {
  import opened Basics
  import opened Transitions

  /** The stored tables. Rows come ordered by revision. `format` is 2 once the stored scope
      carries the marker that older readers refuse. */
  datatype Store = Store(scope: Scope, format: nat, head: nat, history: seq<Row>, aborts: seq<AbortRow>)

  datatype History = History(head: Option<Record>, completed: Option<Record>, ids: set<Id>, aborts: seq<AbortRow>,
                             consumed: Option<nat>, lastRevision: nat)

  /** The tables hold just these slots. */
  ghost predicate Holds(db: Store, scope: Scope, slots: seq<Slot>) {
    && db.scope == scope && scope.initial > 0 && db.head == scope.initial + |slots| - 1
    && db.history == HistoryRows(scope.initial, slots) && db.aborts == AbortRows(scope.initial, slots)
    && (db.format == 2 || db.format == 1) && (db.format == 2 <==> db.aborts != [])
  }

  function HistoryOf(scope: Scope, slots: seq<Slot>): History
    requires scope.initial > 0
  {
    History(Effective(slots), LastCompleted(slots), Ids(slots), AbortRows(scope.initial, slots),
            if slots == [] then None else Some(scope.initial + |slots| - 1), scope.initial + |slots| - 1)
  }

  /** Scan the abort table. */
  method ReadAborts(rows: seq<AbortRow>, scope: Scope, trust: Trust) returns (ok: bool)
    ensures ok <==> AbortsOk(scope, trust, rows)
  {
    if |rows| > MAX_ABORT_ROWS {
      return false;
    }
    var ids, targets, k := {}, {}, 0;
    while k < |rows|
      invariant k <= |rows|
      invariant forall i :: 0 <= i < k ==> AbortRowOk(scope, trust, rows[i])
      invariant forall i, j :: 0 <= i < j < k ==> Differ(rows[i], rows[j])
      invariant ids == set i | 0 <= i < k :: rows[i].record.abort.id
      invariant targets == set i | 0 <= i < k :: rows[i].record.abort.requestId
    {
      if !AbortRowOk(scope, trust, rows[k]) {
        return false;
      }
      var a := rows[k].record.abort;
      if a.id in ids || a.requestId in targets {
        var i :| 0 <= i < k && (rows[i].record.abort.id == a.id || rows[i].record.abort.requestId == a.requestId);
        assert !Differ(rows[i], rows[k]);
        return false;
      }
      assert forall i :: 0 <= i < k ==> Differ(rows[i], rows[k]);
      ids, targets, k := ids + {a.id}, targets + {a.requestId}, k + 1;
    }
    ok := true;
  }

  /** How far a merge has come: i and j rows read, which make up these slots. */
  ghost predicate Merged(db: Store, scope: Scope, trust: Trust, i: nat, j: nat, slots: seq<Slot>, h: History) {
    && scope.initial > 0 && i <= |db.history| && j <= |db.aborts|
    && HistoryRows(scope.initial, slots) == db.history[..i] && AbortRows(scope.initial, slots) == db.aborts[..j]
    && Chained(scope, slots) && TokensOk(trust, slots)
    && h == HistoryOf(scope, slots).(aborts := db.aborts)
  }

  /** The tables to be read are those of some accepted slots. */
  ghost predicate Expects(db: Store, scope: Scope, trust: Trust, gs: seq<Slot>) {
    && db.history == HistoryRows(scope.initial, gs) && db.aborts == AbortRows(scope.initial, gs)
    && Chained(scope, gs) && TokensOk(trust, gs)
  }

  lemma Expected(db: Store, scope: Scope, trust: Trust, gs: seq<Slot>, k: nat)
    requires Expects(db, scope, trust, gs) && k <= |gs|
    ensures RowsAt(scope.initial, gs, k, db.history, db.aborts, |HistoryRows(scope.initial, gs[..k])|, |AbortRows(scope.initial, gs[..k])|)
    ensures k < |gs| ==> SlotOk(scope, gs[..k], gs[k])
    ensures k < |gs| && gs[k].Decided? ==> Certificate(gs[k].record.token, trust, gs[k].record.request).Some?
  {
    RowsAtHold(scope.initial, gs, k);
    if k < |gs| {
      ChainedAt(scope, gs, k);
    }
  }

  /** If the tables are those of accepted slots, the rows at hand make up the next one. */
  lemma NextSlot(db: Store, scope: Scope, trust: Trust, i: nat, j: nat, slots: seq<Slot>, h: History, gs: seq<Slot>, s: Slot)
    requires Merged(db, scope, trust, i, j, slots, h)
    requires match s
             case Burned(a) =>
               && j < |db.aborts| && a == db.aborts[j].record
               && (i < |db.history| ==> db.aborts[j].revision < db.history[i].revision)
             case Decided(r, a) =>
               && i < |db.history| && r == db.history[i].record
               && (j < |db.aborts| ==> db.history[i].revision <= db.aborts[j].revision)
               && a == if j < |db.aborts| && db.aborts[j].revision == db.history[i].revision then Some(db.aborts[j].record) else None
    ensures Expects(db, scope, trust, gs) && slots <= gs ==> slots + [s] <= gs && SlotOk(scope, slots, s)
    ensures Expects(db, scope, trust, gs) && slots <= gs && s.Decided? ==>
              Certificate(s.record.token, trust, s.record.request).Some? && db.history[i].revision == s.record.request.revision
  {
    if Expects(db, scope, trust, gs) && slots <= gs {
      Expected(db, scope, trust, gs, |slots|);
      assert gs[..|slots|] == slots;
    }
  }

  function Pushed(scope: Scope, h: History, s: Slot, revision: nat): History {
    var n := h.(consumed := Some(revision), lastRevision := revision);
    match s
    case Burned(_) => n
    case Decided(r, a) =>
      if a.Some? then n.(ids := h.ids + {r.request.id})
      else n.(ids := h.ids + {r.request.id}, head := Some(r), completed := if r.completion.Some? then Some(r) else h.completed)
  }

  /** Taking one more slot in keeps a merge right. */
  lemma Push(db: Store, scope: Scope, trust: Trust, i: nat, j: nat, slots: seq<Slot>, h: History, s: Slot)
    requires Merged(db, scope, trust, i, j, slots, h) && SlotOk(scope, slots, s)
    requires s.Decided? ==> i < |db.history| && db.history[i] == Row(scope.initial + |slots|, s.record) && Certificate(s.record.token, trust, s.record.request).Some?
    requires AbortOf(s).Some? ==> j < |db.aborts| && db.aborts[j] == AbortRow(scope.initial + |slots|, AbortOf(s).value)
    ensures Merged(db, scope, trust, if s.Decided? then i + 1 else i, if AbortOf(s).Some? then j + 1 else j, slots + [s],
                   Pushed(scope, h, s, scope.initial + |slots|))
  {
    hide SlotOk, Certificate;
    var more := slots + [s];
    assert Init(more) == slots && Last(more) == s;
  }

  /** The next free revision. */
  function Next(scope: Scope, h: History): nat {
    if h.consumed.Some? then h.consumed.value + 1 else scope.initial
  }

  /** One revision taken by an abort that was never decided. */
  method ReplayBurned(db: Store, scope: Scope, trust: Trust, i: nat, j: nat, h: History, ghost slots: seq<Slot>, ghost gs: seq<Slot>)
    returns (ok: bool, n: History, ghost more: seq<Slot>)
    requires Merged(db, scope, trust, i, j, slots, h) && j < |db.aborts| && AbortRowOk(scope, trust, db.aborts[j])
    requires i < |db.history| ==> db.aborts[j].revision < db.history[i].revision
    ensures ok ==> Merged(db, scope, trust, i, j + 1, more, n)
    ensures Expects(db, scope, trust, gs) && slots <= gs ==> ok && more <= gs
  {
    hide Expects, Chained, TokensOk, HistoryRows, AbortRows, ValidAbort, LastCompleted, Ids, Effective;
    var a, revision := db.aborts[j].record, db.aborts[j].revision;
    more, n := slots + [Burned(a)], h;
    NextSlot(db, scope, trust, i, j, slots, h, gs, Burned(a));
    if a.abort.decided || a.abort.abortedRevision != Next(scope, h) || !Done(h.head) {
      return false, n, more;
    }
    Push(db, scope, trust, i, j, slots, h, Burned(a));
    n := h.(consumed := Some(revision), lastRevision := revision);
    ok := true;
  }

  /** One revision taken by a decided record, possibly aborted afterwards. */
  method ReplayDecided(db: Store, scope: Scope, trust: Trust, i: nat, j: nat, h: History, ghost slots: seq<Slot>, ghost gs: seq<Slot>)
    returns (ok: bool, next: nat, n: History, ghost more: seq<Slot>)
    requires Merged(db, scope, trust, i, j, slots, h) && i < |db.history|
    requires j < |db.aborts| ==> db.history[i].revision <= db.aborts[j].revision && AbortRowOk(scope, trust, db.aborts[j])
    ensures ok ==> Merged(db, scope, trust, i + 1, next, more, n)
    ensures Expects(db, scope, trust, gs) && slots <= gs ==> ok && more <= gs
  {
    hide Expects, Chained, TokensOk, HistoryRows, AbortRows, ValidAbort, ValidRequest, LastCompleted, Ids, Effective, RecordOk, Cancels;
    var row := db.history[i];
    var r, q := row.record, row.record.request;
    var aborted := j < |db.aborts| && db.aborts[j].revision == row.revision;
    next, n := if aborted then j + 1 else j, h;
    ghost var s := Decided(r, if aborted then Some(db.aborts[j].record) else None);
    more := slots + [s];
    NextSlot(db, scope, trust, i, j, slots, h, gs, s);
    if !RecordOk(r) || row.revision != q.revision || Certificate(r.token, trust, q).None? || q.id in h.ids
       || !Chains(scope, h.head, Next(scope, h), q) || (aborted && !Cancels(db.aborts[j].record.abort, r)) {
      return false, next, n, more;
    }
    Push(db, scope, trust, i, j, slots, h, s);
    n := h.(consumed := Some(row.revision), lastRevision := row.revision, ids := h.ids + {q.id});
    if !aborted {
      n := n.(head := Some(r), completed := if r.completion.Some? then Some(r) else h.completed);
    }
    ok := true;
  }

  /** Read the whole journal. Whatever the tables hold, a read that succeeds has found slots
      that they hold exactly and that form a right history; and tables that hold such slots
      are accepted. */
  method Read(db: Store, scope: Scope, trust: Trust, ghost gs: seq<Slot>) returns (r: Answer<History>, ghost slots: seq<Slot>)
    requires scope.initial > 0 && (db.format == 1 || db.format == 2)
    ensures r.Ok? ==> Readable(scope, trust, slots) && r.value == HistoryOf(scope, slots)
    ensures r.Ok? ==> db.scope == scope && db.head == scope.initial + |slots| - 1 && (db.aborts != [] ==> db.format == 2)
    ensures r.Ok? ==> db.history == HistoryRows(scope.initial, slots) && db.aborts == AbortRows(scope.initial, slots)
    ensures Holds(db, scope, gs) && Chained(scope, gs) ==> (r.Ok? <==> Readable(scope, trust, gs)) && (r.Ok? ==> slots == gs)
    ensures Holds(db, scope, gs) && r.Err? ==> r.error == Unreadable
  {
    slots := [];
    hide Chained, TokensOk, AbortsOk, HistoryRows, AbortRows, Effective, LastCompleted, Ids;
    if Holds(db, scope, gs) {
      Unique(db, scope, gs);
    }
    if db.scope != scope {
      return Err(ScopeMismatch), slots;
    }
    if db.format != 2 && db.aborts != [] {
      return Err(FormatMissing), slots;
    }
    var scanned := ReadAborts(db.aborts, scope, trust);
    if !scanned {
      return Err(Unreadable), slots;
    }
    var ok, h;
    ok, h, slots := Merge(db, scope, trust, gs);
    if !ok {
      return Err(Unreadable), slots;
    }
    assert db.aborts[..|db.aborts|] == db.aborts && db.history[..|db.history|] == db.history;
    if db.head != h.lastRevision {
      return Err(HeadMismatch), slots;
    }
    r := Ok(h);
  }

  /** Tables determine the slots they hold. */
  lemma SameRowsSameSlots(initial: nat, a: seq<Slot>, b: seq<Slot>)
    requires HistoryRows(initial, a) == HistoryRows(initial, b) && AbortRows(initial, a) == AbortRows(initial, b)
    ensures a == b
  {
    var k := 0;
    while k < |a| && k < |b|
      invariant k <= |a| && k <= |b| && a[..k] == b[..k]
    {
      RowsAtHold(initial, a, k);
      RowsAtHold(initial, b, k);
      assert a[..k + 1] == a[..k] + [a[k]] && b[..k + 1] == b[..k] + [b[k]];
      k := k + 1;
    }
    RowsAtHold(initial, a, k);
    RowsAtHold(initial, b, k);
    assert |a| == k == |b|;
    assert a[..k] == a && b[..k] == b;
  }

  lemma Unique(db: Store, scope: Scope, gs: seq<Slot>)
    requires Holds(db, scope, gs)
    ensures forall slots: seq<Slot> :: db.history == HistoryRows(scope.initial, slots) && db.aborts == AbortRows(scope.initial, slots) ==> slots == gs
  {
    forall slots: seq<Slot> | db.history == HistoryRows(scope.initial, slots) && db.aborts == AbortRows(scope.initial, slots)
      ensures slots == gs
    {
      SameRowsSameSlots(scope.initial, slots, gs);
    }
  }

  method Merge(db: Store, scope: Scope, trust: Trust, ghost gs: seq<Slot>) returns (ok: bool, h: History, ghost slots: seq<Slot>)
    requires scope.initial > 0 && AbortsOk(scope, trust, db.aborts)
    ensures ok ==> Merged(db, scope, trust, |db.history|, |db.aborts|, slots, h)
    ensures Expects(db, scope, trust, gs) ==> ok && slots == gs
  {
    hide Chained, TokensOk, HistoryRows, AbortRows, AbortRowOk, Differ, Effective, LastCompleted, Ids;
    h := History(None, None, {}, db.aborts, None, scope.initial - 1);
    slots := [];
    StartOfMerge(db, scope, trust, gs);
    var i, j := 0, 0;
    while i < |db.history|
      invariant Merged(db, scope, trust, i, j, slots, h)
      invariant Expects(db, scope, trust, gs) ==> slots <= gs
    {
      ok, j, h, slots := ReplayBurnedBelow(db, scope, trust, i, j, h, slots, gs);
      if !ok {
        return;
      }
      ok, j, h, slots := ReplayDecided(db, scope, trust, i, j, h, slots, gs);
      if !ok {
        return;
      }
      i := i + 1;
    }
    ok, j, h, slots := ReplayBurnedBelow(db, scope, trust, i, j, h, slots, gs);
    if Expects(db, scope, trust, gs) {
      EndOfMerge(db, scope, trust, slots, gs);
    }
  }

  lemma StartOfMerge(db: Store, scope: Scope, trust: Trust, gs: seq<Slot>)
    requires scope.initial > 0
    ensures Merged(db, scope, trust, 0, 0, [], History(None, None, {}, db.aborts, None, scope.initial - 1))
  {
  }

  lemma EndOfMerge(db: Store, scope: Scope, trust: Trust, slots: seq<Slot>, gs: seq<Slot>)
    requires Expects(db, scope, trust, gs) && slots <= gs
    requires HistoryRows(scope.initial, slots) == db.history && AbortRows(scope.initial, slots) == db.aborts
    ensures slots == gs
  {
    Expected(db, scope, trust, gs, |slots|);
    assert gs[..|slots|] == slots;
  }

  /** Replay the aborts below the next history row, or all that are left. */
  method ReplayBurnedBelow(db: Store, scope: Scope, trust: Trust, i: nat, from: nat, start: History, ghost before: seq<Slot>, ghost gs: seq<Slot>)
    returns (ok: bool, j: nat, h: History, ghost slots: seq<Slot>)
    requires Merged(db, scope, trust, i, from, before, start) && AbortsOk(scope, trust, db.aborts)
    ensures ok ==> Merged(db, scope, trust, i, j, slots, h)
    ensures ok ==> if i < |db.history| then j < |db.aborts| ==> db.history[i].revision <= db.aborts[j].revision else j == |db.aborts|
    ensures Expects(db, scope, trust, gs) && before <= gs ==> ok && slots <= gs
  {
    hide Chained, TokensOk, HistoryRows, AbortRows, AbortRowOk, Differ, Effective, LastCompleted, Ids;
    ok, j, h, slots := true, from, start, before;
    while j < |db.aborts| && (i == |db.history| || db.aborts[j].revision < db.history[i].revision)
      invariant ok && Merged(db, scope, trust, i, j, slots, h)
      invariant Expects(db, scope, trust, gs) && before <= gs ==> slots <= gs
    {
      ok, h, slots := ReplayBurned(db, scope, trust, i, j, h, slots, gs);
      if !ok {
        return;
      }
      j := j + 1;
    }
  }
}
