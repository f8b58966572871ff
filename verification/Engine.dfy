/** Recovery and commit across two live nodes. Any call may go unanswered, before or after
    it took effect, unless the link is healthy. */
module Engine {
  import opened Basics
  import opened Reference
  import opened Ledgers
  import opened Tables
  import opened Nodes
  import opened Pairs
  import opened Runs
  import opened Comparison

  ghost function World(p: Node, s: Node): Pair
    reads p, s
  {
    Pair(p.ledger, s.ledger)
  }

  /** Two nodes in some state of the pair protocol. */
  ghost predicate Paired(p: Node, s: Node)
    reads p, s
  {
    p != s && Matched(p, s) && p.Valid() && s.Valid() && Core(p.identity, World(p, s))
  }

  /** What recover may be given: any two nodes. Those whose journals agree are expected to
      be in a state of the protocol. */
  ghost predicate Attached(p: Node, s: Node)
    reads p, s
  {
    && p != s && p.Valid() && s.Valid()
    && (Matched(p, s) && Full(s.ledger) <= Full(p.ledger) ==> Core(p.identity, World(p, s)))
  }

  // ---------------------------------------------------------------- calls that may be lost

  /** A call either left the ledger as it was or had its full effect. An answer, and any
      call over a healthy link, is the operation's own. */
  ghost predicate Took<T>(healthy: bool, r: Outcome<T>, before: Ledger, after: Ledger, full: (Outcome<T>, Ledger)) {
    (healthy || r.Ok? ==> (r, after) == full) && (after == before || after == full.1)
  }

  lemma Moves(id: Identity, w: Pair, a: Action)
    requires Core(id, w) && Legal(id, w, a) && !a.Replace?
    ensures Core(id, Step(id, w, a)) && Leads(id, w, Step(id, w, a)) && Leads(id, w, w)
  {
    StepKeeps(id, w, a);
    LeadsByStep(id, w, a);
    LeadsNowhere(id, w);
  }

  lemma RowsBelowFloorDiffer(id: Identity, w: Pair, row: nat)
    requires Core(id, w) && Floor(w.s) < row <= Length(w.p)
    ensures forall i :: i in w.s.missing ==> w.s.applied[i - 1].batch.operationId != EntryAt(w.p, row).body.batch.operationId
  {
    assert EntryAt(w.p, row).body == Full(w.p)[row - 1];
    forall i | i in w.s.missing
      ensures w.s.applied[i - 1].batch.operationId != EntryAt(w.p, row).body.batch.operationId
    {
      assert w.s.applied[i - 1] == Full(w.s)[i - 1] == Full(w.p)[i - 1];
    }
  }

  method StageRemote(p: Node, s: Node, e: Entry, healthy: bool, ghost row: nat) returns (r: Outcome<()>)
    requires Paired(p, s) && Present(p.ledger, row) && e == EntryAt(p.ledger, row) && Floor(s.ledger) < row
    modifies s
    ensures Paired(p, s) && Leads(p.identity, old(World(p, s)), World(p, s))
    ensures Took(healthy, r, old(s.ledger), s.ledger, StageOn(old(s.ledger), Secondary, p.identity, e))
  {
    Moves(p.identity, World(p, s), Action.Stage(row));
    RowsBelowFloorDiffer(p.identity, World(p, s), row);
    var lost := Lost(healthy);
    if lost {
      return Err(Unreachable);
    }
    r := s.Stage(e);
    lost := Lost(healthy);
    if lost {
      r := Err(Unreachable);
    }
  }

  method ApplyRemote(p: Node, s: Node, e: Entry, healthy: bool, ghost row: nat) returns (r: Outcome<()>)
    requires Paired(p, s) && Present(p.ledger, row) && e == EntryAt(p.ledger, row) && !e.state.Prepared?
    modifies s
    ensures Paired(p, s) && Leads(p.identity, old(World(p, s)), World(p, s))
    ensures Took(healthy, r, old(s.ledger), s.ledger, ApplyOn(old(s.ledger), Secondary, p.identity, e))
  {
    Moves(p.identity, World(p, s), ApplySecondary(row));
    var lost := Lost(healthy);
    if lost {
      return Err(Unreachable);
    }
    r := s.Apply(e);
    lost := Lost(healthy);
    if lost {
      r := Err(Unreachable);
    }
  }

  method ApplyLocal(p: Node, s: Node, e: Entry, healthy: bool, ghost row: nat) returns (r: Outcome<()>)
    requires Paired(p, s) && Present(p.ledger, row) && e == EntryAt(p.ledger, row) && row <= |s.ledger.applied|
    modifies p
    ensures Paired(p, s) && Leads(p.identity, old(World(p, s)), World(p, s))
    ensures Took(healthy, r, old(p.ledger), p.ledger, ApplyOn(old(p.ledger), Primary, p.identity, e))
  {
    Moves(p.identity, World(p, s), ApplyPrimary(row));
    var lost := Lost(healthy);
    if lost {
      return Err(Unreachable);
    }
    r := p.Apply(e);
    lost := Lost(healthy);
    if lost {
      r := Err(Unreachable);
    }
  }

  method AbortRemote(p: Node, s: Node, op: Text, healthy: bool) returns (r: Outcome<()>)
    requires Paired(p, s) && PreparedAs(p.ledger, op) && |p.ledger.applied| <= |s.ledger.applied|
    modifies s
    ensures Paired(p, s) && Leads(p.identity, old(World(p, s)), World(p, s))
    ensures s.ledger == old(s.ledger) || s.ledger == old(s.ledger).(pending := None)
    ensures r.Ok? ==> s.ledger.pending.None?
    ensures healthy ==> r.Ok?
  {
    AbortsSecondary(p.identity, World(p, s));
    Moves(p.identity, World(p, s), AbortSecondary(op));
    var lost := Lost(healthy);
    if lost {
      return Err(Unreachable);
    }
    r := s.Abort(op);
    lost := Lost(healthy);
    if lost {
      r := Err(Unreachable);
    }
  }

  method AbortLocal(p: Node, s: Node, op: Text, healthy: bool) returns (r: Outcome<()>)
    requires Paired(p, s) && PreparedAs(p.ledger, op) && s.ledger.pending.None?
    modifies p
    ensures Paired(p, s) && Leads(p.identity, old(World(p, s)), World(p, s))
    ensures p.ledger == old(p.ledger) || p.ledger == old(p.ledger).(pending := None)
    ensures r.Ok? ==> p.ledger.pending.None?
    ensures healthy ==> r.Ok?
  {
    AbortsPrimary(p.identity, p.ledger);
    Moves(p.identity, World(p, s), AbortPrimary(op));
    var lost := Lost(healthy);
    if lost {
      return Err(Unreachable);
    }
    r := p.Abort(op);
    lost := Lost(healthy);
    if lost {
      r := Err(Unreachable);
    }
  }

  method ConfirmRemote(p: Node, s: Node, healthy: bool) returns (r: Outcome<()>)
    requires Paired(p, s) && p.ledger.pending.None?
    modifies s
    ensures Paired(p, s) && Leads(p.identity, old(World(p, s)), World(p, s))
    ensures Took(healthy, r, old(s.ledger), s.ledger, ConfirmCheckpointOn(old(s.ledger), Secondary, p.identity, Current(p.identity, p.ledger)))
  {
    Moves(p.identity, World(p, s), Action.Confirm);
    var lost := Lost(healthy);
    var current := p.GetCheckpoint();
    if lost || current.Err? {
      return Err(Unreachable);
    }
    r := s.ConfirmCheckpoint(current.value);
    lost := Lost(healthy);
    if lost {
      r := Err(Unreachable);
    }
  }

  // ---------------------------------------------------------------- one row of the replay

  /** Staging the next committed row on the secondary succeeds. */
  lemma StageSucceeds(id: Identity, w: Pair, k: nat)
    requires Core(id, w) && 0 < k <= |Committed(w.p)| && k - 1 <= |w.s.applied| && Floor(w.s) < k
    ensures var (r, n) := StageOn(w.s, Secondary, id, EntryAt(w.p, k));
            && r == Ok(()) && n.applied == w.s.applied && k <= Length(n) && SameSlots(w.s, n)
  {
    var e := EntryAt(w.p, k);
    assert LinkOk(id, Full(w.p), k - 1) && e.body == Full(w.p)[k - 1];
    if Present(w.s, k) {
      assert EntryAt(w.s, k).body == Full(w.s)[k - 1];
    } else {
      assert Full(w.s) == w.s.applied && |w.s.applied| == k - 1;
      assert ViewAt(Full(w.p), k - 1) == ViewAt(w.s.applied, k - 1);
      NothingRepeats(id, Full(w.p), w.s.applied, k - 1);
    }
  }

  lemma NothingRepeats(id: Identity, a: seq<Body>, b: seq<Body>, i: nat)
    requires ChainOk(id, a) && b <= a && |b| <= i < |a|
    ensures Position(b, a[i].batch.operationId) == 0
  {
    assert forall j :: 0 <= j < |b| ==> b[j] == a[j];
  }

  /** Applying it there, and then here, succeeds. */
  lemma ApplySucceeds(id: Identity, l: Ledger, role: Role, e: Entry, k: nat)
    requires LedgerOk(id, l) && !l.transferring && Floor(l) < k <= Length(l) && k - 1 <= |l.applied|
    requires e.body == Full(l)[k - 1] && e.digest == Checksum(e.body) && !e.state.Prepared?
    requires role == Primary && k > |l.applied| ==> l.pending.value.state.Decided?
    ensures var (r, n) := ApplyOn(l, role, id, e);
            r == Ok(()) && (if k <= |l.applied| then n == l else n == Settle(l, role, id))
  {
    assert LinkOk(id, Full(l), k - 1);
    assert EntryAt(l, k).body == Full(l)[k - 1];
  }

  // ---------------------------------------------------------------- the replay

  /** The base, the published slot and the read generation are untouched. */
  ghost predicate SameSlots(l: Ledger, n: Ledger) {
    n.floor == l.floor && n.publication == l.publication && n.generation == l.generation
  }

  /** A primary once its unresolved row is settled: applied if decided, gone if prepared. */
  function Reconciled(l: Ledger): Ledger {
    l.(applied := Committed(l), pending := None)
  }

  /** Both nodes hold exactly what the primary had committed, fully applied. */
  ghost predicate Converged(l: Ledger, w: Pair) {
    w.p == Reconciled(l) && w.s.applied == w.p.applied && w.s.pending.None?
  }

  /** The replay from state w0 has handled the primary's rows up to a cursor. */
  ghost predicate Progress(id: Identity, w0: Pair, w: Pair, cursor: nat) {
    && Leads(id, w0, w) && w.p.floor == w0.p.floor && SameSlots(w0.s, w.s)
    && Max(Floor(w.p), Floor(w.s)) <= cursor <= Length(w0.p)
    && (if cursor < Length(w0.p) then w.p == w0.p && cursor <= |w.p.applied| && cursor <= |w.s.applied|
        else Converged(w0.p, w))
  }

  /** On the way, whatever fails, nothing is committed or lost. */
  ghost predicate Kept(id: Identity, w0: Pair, w: Pair) {
    Leads(id, w0, w) && Committed(w.p) == Committed(w0.p)
  }

  lemma ProgressKeeps(id: Identity, w0: Pair, w: Pair, cursor: nat)
    requires Progress(id, w0, w, cursor)
    ensures Kept(id, w0, w)
  {
  }

  /** How many rows up to a cursor are committed. */
  function Rolled(l: Ledger, cursor: nat): nat {
    Min(cursor, |Committed(l)|)
  }

  lemma ForwardDone(id: Identity, w0: Pair, w: Pair, v: Pair, k: nat)
    requires 0 < k <= |Committed(w0.p)| && Progress(id, w0, w, k - 1) && Core(id, v) && Leads(id, w0, v)
    requires v.p.floor == w.p.floor && SameSlots(w.s, v.s) && k <= |v.s.applied|
    requires if k <= |w.p.applied| then v.p == w.p else v.p == Reconciled(w.p)
    ensures Progress(id, w0, v, k)
  {
    if k == Length(w0.p) {
      assert Committed(v.p) == v.p.applied == Committed(w0.p);
      assert v.s.applied == Committed(v.p);
      assert k <= |w.p.applied| ==> w.p == Reconciled(w.p);
    }
  }

  /** Row k of the primary is committed and is the next one the secondary may lack. */
  ghost predicate NextRow(w: Pair, k: nat) {
    && 0 < k <= |Committed(w.p)| && k - 1 <= |w.s.applied| && k - 1 <= |w.p.applied|
    && Floor(w.p) < k && Floor(w.s) < k
  }

  method StageNext(p: Node, s: Node, e: Entry, healthy: bool, ghost k: nat) returns (r: Outcome<()>)
    requires Paired(p, s) && NextRow(World(p, s), k) && e == EntryAt(p.ledger, k)
    modifies s
    ensures Paired(p, s) && Leads(p.identity, old(World(p, s)), World(p, s)) && NextRow(World(p, s), k)
    ensures SameSlots(old(s.ledger), s.ledger)
    ensures r.Ok? ==> k <= Length(s.ledger)
    ensures healthy ==> r.Ok?
  {
    StageSucceeds(p.identity, World(p, s), k);
    r := StageRemote(p, s, e, healthy, k);
  }

  method ApplyNext(p: Node, s: Node, e: Entry, healthy: bool, ghost k: nat) returns (r: Outcome<()>)
    requires Paired(p, s) && NextRow(World(p, s), k) && e == EntryAt(p.ledger, k) && k <= Length(s.ledger)
    modifies s
    ensures Paired(p, s) && Leads(p.identity, old(World(p, s)), World(p, s)) && NextRow(World(p, s), k)
    ensures SameSlots(old(s.ledger), s.ledger)
    ensures r.Ok? ==> k <= |s.ledger.applied|
    ensures healthy ==> r.Ok?
  {
    CommittedBody(p.identity, World(p, s), k);
    ApplySucceeds(p.identity, s.ledger, Secondary, e, k);
    SettleReaches(p.identity, s.ledger, Secondary);
    r := ApplyRemote(p, s, e, healthy, k);
  }

  method SettleNext(p: Node, s: Node, e: Entry, healthy: bool, ghost k: nat) returns (r: Outcome<()>)
    requires Paired(p, s) && NextRow(World(p, s), k) && e == EntryAt(p.ledger, k) && k <= |s.ledger.applied|
    modifies p
    ensures Paired(p, s) && Leads(p.identity, old(World(p, s)), World(p, s))
    ensures p.ledger.floor == old(p.ledger.floor) && Committed(p.ledger) == old(Committed(p.ledger))
    ensures p.ledger == old(p.ledger) || (k > old(|p.ledger.applied|) && p.ledger == Reconciled(old(p.ledger)))
    ensures r.Ok? ==> k <= |p.ledger.applied|
    ensures healthy ==> r.Ok?
  {
    CommittedBody(p.identity, World(p, s), k);
    ApplySucceeds(p.identity, p.ledger, Primary, e, k);
    SettleReaches(p.identity, p.ledger, Primary);
    r := ApplyLocal(p, s, e, healthy, k);
  }

  lemma CommittedBody(id: Identity, w: Pair, k: nat)
    requires Core(id, w) && 0 < k <= |Committed(w.p)| && k <= Length(w.s)
    ensures EntryAt(w.p, k).body == Full(w.s)[k - 1] == Full(w.p)[k - 1] && !EntryAt(w.p, k).state.Prepared?
  {
  }

  lemma SettleReaches(id: Identity, l: Ledger, role: Role)
    requires LedgerOk(id, l)
    ensures l.pending.Some? ==>
              var n := Settle(l, role, id);
              n.applied == Full(l) && n.pending.None? && SameSlots(l, n) && Committed(n) == Full(l)
  {
    if l.pending.Some? {
      SettleKeeps(l, role, id);
    }
  }

  /** Roll a committed row forward on both nodes. */
  method Forward(p: Node, s: Node, e: Entry, healthy: bool, ghost w0: Pair, ghost k: nat) returns (r: Outcome<()>)
    requires Paired(p, s) && k > 0 && Progress(p.identity, w0, World(p, s), k - 1) && k <= |Committed(w0.p)|
    requires e == EntryAt(w0.p, k)
    modifies p, s
    ensures Paired(p, s) && Kept(p.identity, w0, World(p, s))
    ensures r.Ok? ==> Progress(p.identity, w0, World(p, s), k)
    ensures healthy ==> r.Ok?
  {
    ghost var id, w := p.identity, World(p, s);
    r := StageNext(p, s, e, healthy, k);
    ghost var x := World(p, s);
    LeadsOn(id, w0, w, x);
    if r.Err? {
      return;
    }
    r := ApplyNext(p, s, e, healthy, k);
    ghost var y := World(p, s);
    LeadsOn(id, w0, x, y);
    if r.Err? {
      return;
    }
    r := SettleNext(p, s, e, healthy, k);
    LeadsOn(id, w0, y, World(p, s));
    if r.Ok? {
      ForwardDone(id, w0, w, World(p, s), k);
    }
  }

  /** A row that was only prepared was never answered for: take it back, secondary first. */
  method Backward(p: Node, s: Node, e: Entry, healthy: bool, ghost w0: Pair) returns (r: Outcome<()>)
    requires Paired(p, s) && Length(w0.p) > 0 && Progress(p.identity, w0, World(p, s), Length(w0.p) - 1)
    requires e == EntryAt(w0.p, Length(w0.p)) && e.state.Prepared?
    modifies p, s
    ensures Paired(p, s) && Kept(p.identity, w0, World(p, s))
    ensures r.Ok? ==> Progress(p.identity, w0, World(p, s), Length(w0.p))
    ensures healthy ==> r.Ok?
  {
    ghost var id, w := p.identity, World(p, s);
    r := AbortRemote(p, s, e.body.batch.operationId, healthy);
    ghost var x := World(p, s);
    LeadsOn(id, w0, w, x);
    if r.Err? {
      return;
    }
    r := AbortLocal(p, s, e.body.batch.operationId, healthy);
    ghost var y := World(p, s);
    LeadsOn(id, w0, x, y);
    BackwardKeeps(id, w0, w.s, y);
  }

  lemma BackwardKeeps(id: Identity, w0: Pair, s: Ledger, y: Pair)
    requires w0.p.pending.Some? && w0.p.pending.value.state.Prepared? && Leads(id, w0, y) && Core(id, y)
    requires Progress(id, w0, Pair(w0.p, s), |w0.p.applied|)
    requires y.p == w0.p || y.p == w0.p.(pending := None)
    requires y.s == s.(pending := None)
    ensures Kept(id, w0, y)
    ensures y.p.pending.None? ==> Progress(id, w0, y, Length(w0.p))
  {
    assert Committed(w0.p) == w0.p.applied;
  }

  lemma AbortsSecondary(id: Identity, w: Pair)
    requires Core(id, w) && w.p.pending.Some? && w.p.pending.value.state.Prepared? && |w.p.applied| <= |w.s.applied|
    ensures AbortOn(w.s, w.p.pending.value.body.batch.operationId) == (Ok(()), w.s.(pending := None))
  {
    var op := w.p.pending.value.body.batch.operationId;
    assert Full(w.p)[|w.p.applied|].batch.operationId == op;
    if w.s.pending.Some? {
      assert Full(w.s)[|w.s.applied|] == Full(w.p)[|w.s.applied|];
    }
    NothingRepeats(id, Full(w.p), w.s.applied, |w.p.applied|);
  }

  lemma AbortsPrimary(id: Identity, l: Ledger)
    requires LedgerOk(id, l) && !l.transferring && l.pending.Some? && l.pending.value.state.Prepared?
    ensures AbortOn(l, l.pending.value.body.batch.operationId) == (Ok(()), l.(pending := None))
  {
    PositionUnique(Full(l), l.pending.value.body.batch.operationId, |l.applied|);
  }

  /** Bring every row of the primary from a cursor on to its end: committed rows forward on
      both nodes, a prepared last row back on both. Each page is non-empty, so the loop
      advances. Answers the number of rows rolled forward. */
  method Replay(p: Node, s: Node, n: nat, prefix: nat, healthy: bool) returns (r: Outcome<nat>)
    requires Paired(p, s) && Progress(p.identity, World(p, s), World(p, s), prefix) && n == Length(p.ledger)
    modifies p, s
    ensures Paired(p, s) && Kept(p.identity, old(World(p, s)), World(p, s))
    ensures r.Ok? ==> Converged(old(p.ledger), World(p, s)) && SameSlots(old(s.ledger), s.ledger)
    ensures r.Ok? ==> r.value == old(|Committed(p.ledger)|) - prefix
    ensures healthy ==> r.Ok?
  {
    hide Core, RowsHold, ReceiptsHold, MarkersHold, Leads, Path, ChainOk, PublicationOk;
    ghost var w0 := World(p, s);
    var cursor, completed := prefix, 0;
    while cursor < n
      invariant Paired(p, s) && prefix <= cursor && Progress(p.identity, w0, World(p, s), cursor)
      invariant completed == Rolled(w0.p, cursor) - prefix
    {
      ProgressKeeps(p.identity, w0, World(p, s), cursor);
      var lost := Lost(healthy);
      var head := p.Head();
      if lost || head.Err? {
        return Err(Unreachable);
      }
      var page := p.GetPage(head.value, cursor, MAX_PAGE_ENTRIES);
      if page.Err? {
        return Err(Reason(page));
      }
      var done := ReplayPage(p, s, page.value.entries, healthy, w0, cursor);
      if done.Err? {
        return Err(done.error);
      }
      cursor, completed := cursor + |page.value.entries|, completed + done.value;
    }
    ProgressKeeps(p.identity, w0, World(p, s), cursor);
    r := Ok(completed);
  }

  method ReplayPage(p: Node, s: Node, es: seq<Entry>, healthy: bool, ghost w0: Pair, ghost start: nat) returns (r: Outcome<nat>)
    requires Paired(p, s) && Progress(p.identity, w0, World(p, s), start)
    requires start + |es| <= Length(w0.p)
    requires forall i :: 0 <= i < |es| ==> es[i] == EntryAt(w0.p, start + i + 1)
    modifies p, s
    ensures Paired(p, s) && Kept(p.identity, w0, World(p, s))
    ensures r.Ok? ==> Progress(p.identity, w0, World(p, s), start + |es|)
    ensures r.Ok? ==> r.value == Rolled(w0.p, start + |es|) - Rolled(w0.p, start)
    ensures healthy ==> r.Ok?
  {
    hide Progress, Core, Represents, Paired;
    var k, completed := 0, 0;
    while k < |es|
      invariant k <= |es|
      invariant Paired(p, s) && Progress(p.identity, w0, World(p, s), start + k)
      invariant completed == Rolled(w0.p, start + k) - Rolled(w0.p, start)
    {
      var one := ReplayRow(p, s, es[k], healthy, w0, start + k + 1);
      if one.Err? {
        return Err(one.error);
      }
      k, completed := k + 1, completed + one.value;
    }
    ProgressKeeps(p.identity, w0, World(p, s), start + k);
    r := Ok(completed);
  }

  method ReplayRow(p: Node, s: Node, e: Entry, healthy: bool, ghost w0: Pair, ghost k: nat) returns (r: Outcome<nat>)
    requires Paired(p, s) && 0 < k <= Length(w0.p) && Progress(p.identity, w0, World(p, s), k - 1) && e == EntryAt(w0.p, k)
    modifies p, s
    ensures Paired(p, s) && Kept(p.identity, w0, World(p, s))
    ensures r.Ok? ==> Progress(p.identity, w0, World(p, s), k)
    ensures r.Ok? ==> r.value == Rolled(w0.p, k) - Rolled(w0.p, k - 1)
    ensures healthy ==> r.Ok?
  {
    if e.state.Prepared? {
      var one := Backward(p, s, e, healthy, w0);
      r := if one.Err? then Err(one.error) else Ok(0);
    } else {
      var one := Forward(p, s, e, healthy, w0, k);
      r := if one.Err? then Err(one.error) else Ok(1);
    }
  }

  // ---------------------------------------------------------------- recover

  /** Recovery ends with both nodes fully applied and equal, and marks the secondary
      readable. Over a healthy link it succeeds exactly when the journals agree and the
      bases can be bridged. Whatever happens it commits nothing new and loses nothing
      committed, and nodes that do not belong together are left as they were. */
  method Recover(p: Node, s: Node, healthy: bool) returns (r: Outcome<nat>)
    requires Attached(p, s)
    modifies p, s
    ensures Attached(p, s)
    ensures old(Paired(p, s)) ==> Paired(p, s) && Kept(p.identity, old(World(p, s)), World(p, s))
    ensures !(Matched(p, s) && old(Reachable(p.ledger, s.ledger))) ==> r.Err? && unchanged(p) && unchanged(s)
    ensures healthy ==> (r.Ok? <==> Matched(p, s) && old(Reachable(p.ledger, s.ledger)))
    ensures r.Ok? ==> Converged(old(p.ledger), World(p, s)) && s.ledger.ready == Some(Current(s.identity, s.ledger))
    ensures r.Ok? ==> SameSlots(old(s.ledger), s.ledger)
    ensures r.Ok? ==> r.value == old(|Committed(p.ledger)| - Min(|p.ledger.applied|, |s.ledger.applied|))
  {
    ghost var w0 := World(p, s);
    var compared := Compare(p, s, healthy);
    if compared.Err? {
      if Paired(p, s) {
        LeadsNowhere(p.identity, w0);
      }
      return Err(compared.error);
    }
    StartOfReplay(p.identity, w0);
    var completed := Replay(p, s, compared.value.0, compared.value.1, healthy);
    if completed.Err? {
      return completed;
    }
    ghost var w := World(p, s);
    var confirmed := ConfirmRemote(p, s, healthy);
    LeadsOn(p.identity, w0, w, World(p, s));
    r := if confirmed.Err? then Err(confirmed.error) else completed;
  }

  lemma StartOfReplay(id: Identity, w: Pair)
    requires Core(id, w) && Reachable(w.p, w.s)
    ensures Progress(id, w, w, Min(|w.p.applied|, |w.s.applied|))
  {
    LeadsNowhere(id, w);
    if Length(w.p) <= |w.p.applied| && Length(w.p) <= |w.s.applied| {
      assert w.p == Reconciled(w.p);
    }
  }

  /** After every run that keeps the pair's two copies, whatever crashes and lost replies
      it went through, a recovery over a healthy link succeeds. */
  lemma EveryRunIsRecoverable(id: Identity, g: nat, h: nat, t: seq<Action>)
    requires Core(id, Fresh(g, h)) && LegalRun(id, Fresh(g, h), t) && KeepsCopies(t)
    ensures Reachable(Run(id, Fresh(g, h), t).p, Run(id, Fresh(g, h), t).s)
  {
    EveryRunIsSafe(id, g, h, t);
  }

  /** With any secondary, also one attached empty, recovery needs only that the primary's
      base lies within what the secondary applied. */
  lemma RecoverableIff(id: Identity, w: Pair)
    requires Core(id, w)
    ensures Reachable(w.p, w.s) <==> Floor(w.p) <= |w.s.applied|
  {
  }

  // ---------------------------------------------------------------- commit

  /** A commit when both nodes are in step: the answer, and the primary afterwards. */
  function CommitOn(l: Ledger, id: Identity, batch: Batch, c: Capture): (Outcome<WriteResult>, Ledger)
    requires LedgerOk(id, l)
  {
    match CompletedOn(l, id, batch)
    case Err(e) => (Err(e), l)
    case Ok(Some(x)) => (Ok(x), l)
    case Ok(None) =>
      var (r, n) := PrepareOn(l, Primary, id, batch, c);
      match r
      case Err(e) => (Err(e), l)
      case Ok(e) => (Ok(WriteResult(e.body.batch.operationId, e.body.sequence)), l.(applied := l.applied + [e.body]))
  }

  /** A request answered as its history demands: refused for the reason there is and nothing
      applied, or answered with the sequence it has, or applied next. */
  ghost predicate Obeys(id: Identity, a: seq<Body>, idle: bool, batch: Batch, c: Capture, r: Outcome<WriteResult>, b: seq<Body>) {
    match Refusal(id, a, idle, batch, c)
    case Some(e) => r == Err(e) && b == a
    case None =>
      if Contains(a, batch) then b == a && forall i :: 0 <= i < |a| && a[i].batch == batch ==> r == Ok(WriteResult(batch.operationId, i + 1))
      else
        && r == Ok(WriteResult(batch.operationId, |a| + 1))
        && |b| == |a| + 1 && b[..|a|] == a && NextBody(a, batch, c, b[|a|])
  }

  /** Which requests a commit accepts, which it refuses and why, and what it applies. */
  lemma CommitObeys(l: Ledger, id: Identity, batch: Batch, c: Capture)
    requires LedgerOk(id, l) && l.pending.None?
    ensures Obeys(id, l.applied, Idle(l.publication), batch, c, CommitOn(l, id, batch, c).0, CommitOn(l, id, batch, c).1.applied)
    ensures CommitOn(l, id, batch, c).1 == l.(applied := CommitOn(l, id, batch, c).1.applied)
  {
    hide Obeys, LedgerOk, CompletedOn, Position;
    assert Full(l) == l.applied;
    if batch.identity == id && batch.operationId != [] {
      if Uses(l.applied, batch.operationId) {
        CommitRepeated(l, id, batch, c);
      } else {
        CommitFresh(l, id, batch, c);
      }
    } else {
      InvalidObeys(l, id, batch, c);
    }
  }

  lemma InvalidObeys(l: Ledger, id: Identity, batch: Batch, c: Capture)
    requires LedgerOk(id, l) && (batch.identity != id || batch.operationId == [])
    ensures CommitOn(l, id, batch, c) == (Err(InvalidBatch), l)
    ensures Obeys(id, l.applied, Idle(l.publication), batch, c, Err(InvalidBatch), l.applied)
  {
    hide LedgerOk;
  }

  lemma CommitRepeated(l: Ledger, id: Identity, batch: Batch, c: Capture)
    requires LedgerOk(id, l) && Full(l) == l.applied && batch.identity == id && batch.operationId != [] && Uses(l.applied, batch.operationId)
    ensures CommitOn(l, id, batch, c).1 == l
    ensures Obeys(id, l.applied, Idle(l.publication), batch, c, CommitOn(l, id, batch, c).0, l.applied)
  {
    hide LedgerOk, CompletedOn, PrepareOn;
    var i :| 0 <= i < |l.applied| && l.applied[i].batch.operationId == batch.operationId;
    UsedOnce(l, id, batch, i);
  }

  lemma CommitFresh(l: Ledger, id: Identity, batch: Batch, c: Capture)
    requires LedgerOk(id, l) && l.pending.None? && Full(l) == l.applied
    requires batch.identity == id && batch.operationId != [] && !Uses(l.applied, batch.operationId)
    ensures Obeys(id, l.applied, Idle(l.publication), batch, c, CommitOn(l, id, batch, c).0, CommitOn(l, id, batch, c).1.applied)
    ensures CommitOn(l, id, batch, c).1 == l.(applied := CommitOn(l, id, batch, c).1.applied)
  {
    assert CompletedOn(l, id, batch) == Ok(None) by {
      hide LedgerOk;
    }
    PrepareAnswers(l, id, batch, c);
    assert !Contains(l.applied, batch);
    hide PrepareOn, LedgerOk, Violates, Results, CompletedOn, Position, Uses, Contains;
  }

  lemma UsedOnce(l: Ledger, id: Identity, batch: Batch, i: nat)
    requires LedgerOk(id, l) && i < |l.applied| && l.applied[i].batch.operationId == batch.operationId && Full(l) == l.applied
    ensures forall j :: 0 <= j < |l.applied| && l.applied[j].batch.operationId == batch.operationId ==> j == i
    ensures batch.identity == id && batch.operationId != [] ==>
              CompletedOn(l, id, batch) == if l.applied[i].batch == batch then Ok(Some(WriteResult(batch.operationId, i + 1))) else Err(KeyReused)
  {
    hide PublicationOk;
    assert LinkOk(id, Full(l), i);
    PositionUnique(Full(l), batch.operationId, i);
  }

  /** A request without a receipt, where nothing is pending, is answered as a new one. */
  lemma FreshAnswers(l: Ledger, id: Identity, batch: Batch, c: Capture)
    requires LedgerOk(id, l) && l.pending.None? && CompletedOn(l, id, batch) == Ok(None)
    ensures Admits(id, l, batch, c, PrepareOn(l, Primary, id, batch, c).0, PrepareOn(l, Primary, id, batch, c).1)
    ensures batch.identity == id && batch.operationId != [] && !Uses(l.applied, batch.operationId)
  {
    hide Admits, PrepareOn;
    assert Full(l) == l.applied;
    PrepareAnswers(l, id, batch, c);
  }

  /** The request is applied on both nodes at the sequence the answer names. */
  ghost predicate Answered(w: Pair, batch: Batch, x: WriteResult) {
    && 0 < x.sequence <= |w.p.applied| && AppliedOnBoth(w, w.p.applied[x.sequence - 1])
    && w.p.applied[x.sequence - 1].batch == batch && x == WriteResult(batch.operationId, x.sequence)
  }

  /** Nothing was committed except, at most once, this request. */
  ghost predicate AtMost(before: seq<Body>, after: seq<Body>, batch: Batch) {
    && before <= after && |after| <= |before| + 1
    && (|after| > |before| ==> after[|before|].batch == batch)
  }

  /** Both nodes in step, nothing unresolved. */
  ghost predicate InStep(w: Pair) {
    w.p.applied == w.s.applied && w.p.pending.None? && w.s.pending.None?
  }

  /** A new request prepared on a primary with nothing pending becomes its pending row. */
  lemma PreparedRow(l: Ledger, id: Identity, batch: Batch, c: Capture)
    requires LedgerOk(id, l) && l.pending.None? && CompletedOn(l, id, batch) == Ok(None)
    ensures var (r, n) := PrepareOn(l, Primary, id, batch, c);
            && (r.Err? ==> n == l)
            && (r.Ok? ==> && r.value == Sealed(r.value.body, Prepared) && n == l.(pending := Some(Pending(r.value.body, Prepared)))
                          && r.value.body.batch == batch && r.value.body.sequence == |l.applied| + 1)
  {
    assert Full(l) == l.applied;
  }

  method PrepareLocal(p: Node, s: Node, batch: Batch, capture: Capture, healthy: bool) returns (r: Outcome<Entry>)
    requires Paired(p, s) && InStep(World(p, s)) && CompletedOn(p.ledger, p.identity, batch) == Ok(None)
    modifies p
    ensures Paired(p, s) && Leads(p.identity, old(World(p, s)), World(p, s))
    ensures Committed(p.ledger) == old(Committed(p.ledger)) && p.ledger.applied == old(p.ledger.applied)
    ensures Floor(p.ledger) == old(Floor(p.ledger))
    ensures r.Ok? ==> p.ledger.pending == Some(Pending(r.value.body, Prepared)) && r.value == Sealed(r.value.body, Prepared)
    ensures r.Ok? ==> r.value.body.batch == batch && r.value.body.sequence == |p.ledger.applied| + 1
    ensures p.ledger == old(p.ledger).(pending := p.ledger.pending) && (r.Err? && healthy ==> p.ledger == old(p.ledger))
    ensures r.Ok? ==> StageOn(s.ledger, Secondary, s.identity, r.value).0 == Ok(())
    ensures healthy || r == Err(ConstraintViolation) ==> r == PrepareOn(old(p.ledger), Primary, p.identity, batch, capture).0
  {
    ghost var w := World(p, s);
    PreparedRow(p.ledger, p.identity, batch, capture);
    Moves(p.identity, w, Action.Prepare(batch, capture));
    if PrepareOn(p.ledger, Primary, p.identity, batch, capture).1 != p.ledger {
      PreparedIsStageable(p.identity, w, batch, capture);
    }
    var lost := Lost(healthy);
    if lost {
      return Err(Unreachable);
    }
    r := p.Prepare(batch, capture);
    lost := Lost(healthy);
    if lost {
      r := Err(Unreachable);
    }
  }

  /** Stage the row just prepared. */
  method StageNew(p: Node, s: Node, e: Entry, healthy: bool) returns (r: Outcome<()>)
    requires Paired(p, s) && p.ledger.applied == s.ledger.applied && s.ledger.pending.None?
    requires p.ledger.pending == Some(Pending(e.body, Prepared)) && e == Sealed(e.body, Prepared)
    requires StageOn(s.ledger, Secondary, s.identity, e).0 == Ok(()) && e.body.sequence == |p.ledger.applied| + 1
    modifies s
    ensures Paired(p, s) && Leads(p.identity, old(World(p, s)), World(p, s))
    ensures s.ledger.applied == old(s.ledger.applied) && SameSlots(old(s.ledger), s.ledger)
    ensures r.Ok? ==> Full(s.ledger) == Full(p.ledger)
    ensures healthy ==> r.Ok?
  {
    StageKeeps(s.ledger, Secondary, s.identity, e);
    r := StageRemote(p, s, e, healthy, Length(p.ledger));
  }

  /** The decision: from here on the request is committed. */
  method DecideLocal(p: Node, s: Node, ghost b: Body, op: Text, healthy: bool) returns (r: Outcome<Entry>)
    requires Paired(p, s) && p.ledger.pending == Some(Pending(b, Prepared)) && b.batch.operationId == op
    requires Full(s.ledger) == Full(p.ledger) && p.ledger.applied == s.ledger.applied
    modifies p
    ensures Paired(p, s) && Leads(p.identity, old(World(p, s)), World(p, s))
    ensures p.ledger == old(p.ledger) || p.ledger == old(p.ledger).(pending := Some(Pending(b, Decided)))
    ensures Committed(p.ledger) == old(p.ledger.applied) || Committed(p.ledger) == old(p.ledger.applied) + [b]
    ensures r.Ok? ==> p.ledger.pending == Some(Pending(b, Decided)) && r.value == EntryAt(p.ledger, Length(p.ledger))
    ensures Full(p.ledger) == old(Full(p.ledger))
    ensures healthy ==> r.Ok?
  {
    Moves(p.identity, World(p, s), Action.Decide(op));
    PositionUnique(Full(p.ledger), op, |p.ledger.applied|);
    var lost := Lost(healthy);
    if lost {
      return Err(Unreachable);
    }
    r := p.Decide(op);
    lost := Lost(healthy);
    if lost {
      r := Err(Unreachable);
    }
  }

  /** Decide a staged row and apply it on both nodes. */
  method Finish(p: Node, s: Node, ghost b: Body, op: Text, healthy: bool) returns (r: Outcome<WriteResult>)
    requires Paired(p, s) && p.ledger.pending == Some(Pending(b, Prepared)) && b.batch.operationId == op
    requires Full(s.ledger) == Full(p.ledger) && p.ledger.applied == s.ledger.applied
    modifies p, s
    ensures Paired(p, s) && Leads(p.identity, old(World(p, s)), World(p, s))
    ensures Committed(p.ledger) == old(p.ledger.applied) || Committed(p.ledger) == old(p.ledger.applied) + [b]
    ensures r.Ok? ==> InStep(World(p, s)) && p.ledger == old(p.ledger).(applied := old(p.ledger.applied) + [b], pending := None)
    ensures r.Ok? ==> r.value == WriteResult(op, old(|p.ledger.applied|) + 1)
    ensures healthy ==> r.Ok?
  {
    ghost var w := World(p, s);
    var decision := DecideLocal(p, s, b, op, healthy);
    if decision.Err? {
      return Err(decision.error);
    }
    ghost var x := World(p, s);
    r := Complete(p, s, decision.value, op, healthy, b);
    LeadsOn(p.identity, w, x, World(p, s));
  }

  /** Carry out a decision and answer from the receipt. */
  method Complete(p: Node, s: Node, decision: Entry, op: Text, healthy: bool, ghost b: Body) returns (r: Outcome<WriteResult>)
    requires Paired(p, s) && p.ledger.pending == Some(Pending(b, Decided)) && decision == EntryAt(p.ledger, Length(p.ledger))
    requires Full(s.ledger) == Full(p.ledger) && p.ledger.applied == s.ledger.applied && b.batch.operationId == op
    modifies p, s
    ensures Paired(p, s) && Leads(p.identity, old(World(p, s)), World(p, s))
    ensures Committed(p.ledger) == old(p.ledger.applied) + [b]
    ensures r.Ok? ==> InStep(World(p, s)) && p.ledger == old(p.ledger).(applied := old(p.ledger.applied) + [b], pending := None)
    ensures r.Ok? ==> r.value == WriteResult(op, old(|p.ledger.applied|) + 1)
    ensures healthy ==> r.Ok?
  {
    var applied := ApplyBoth(p, s, decision, healthy, b);
    if applied.Err? {
      return Err(applied.error);
    }
    r := AnswerFrom(p, op, healthy, |p.ledger.applied|);
  }

  /** Answer a committed operation from its receipt. */
  method AnswerFrom(p: Node, op: Text, healthy: bool, ghost k: nat) returns (r: Outcome<WriteResult>)
    requires p.Valid() && 0 < k <= |p.ledger.applied| && p.ledger.applied[k - 1].batch.operationId == op
    ensures r.Ok? ==> r.value == WriteResult(op, k)
    ensures healthy ==> r.Ok?
  {
    assert Full(p.ledger)[k - 1] == p.ledger.applied[k - 1];
    assert LinkOk(p.identity, Full(p.ledger), k - 1);
    PositionUnique(Full(p.ledger), op, k - 1);
    var lost := Lost(healthy);
    var receipt := p.GetReceiptOf(op);
    if lost || receipt.Err? || receipt.value.None? {
      return Err(MissingReceipt);
    }
    r := Ok(receipt.value.value.result);
  }

  /** Apply a decided last row on the secondary, then here. */
  method ApplyBoth(p: Node, s: Node, decision: Entry, healthy: bool, ghost b: Body) returns (r: Outcome<()>)
    requires Paired(p, s) && p.ledger.pending == Some(Pending(b, Decided)) && decision == EntryAt(p.ledger, Length(p.ledger))
    requires Full(s.ledger) == Full(p.ledger) && p.ledger.applied == s.ledger.applied
    modifies p, s
    ensures Paired(p, s) && Leads(p.identity, old(World(p, s)), World(p, s))
    ensures Committed(p.ledger) == old(Committed(p.ledger))
    ensures r.Ok? ==> InStep(World(p, s)) && p.ledger == Reconciled(old(p.ledger))
    ensures healthy ==> r.Ok?
  {
    ghost var id, w, k := p.identity, World(p, s), Length(p.ledger);
    r := ApplyNext(p, s, decision, healthy, k);
    ghost var x := World(p, s);
    if r.Err? {
      return;
    }
    r := SettleNext(p, s, decision, healthy, k);
    LeadsOn(id, w, x, World(p, s));
  }

  /** Commit a request: recover, answer a repeated request from its receipt, else prepare,
      stage, decide and apply. An answer means that the request, and no other under its
      operation id, is applied on both nodes. A failure leaves at most this request
      committed besides what was committed before. */
  method Commit(p: Node, s: Node, batch: Batch, capture: Capture, healthy: bool) returns (r: Outcome<WriteResult>)
    requires Attached(p, s)
    modifies p, s
    ensures Attached(p, s)
    ensures !(Matched(p, s) && old(Reachable(p.ledger, s.ledger))) ==> r.Err? && unchanged(p) && unchanged(s)
    ensures old(Paired(p, s)) ==> Paired(p, s) && Leads(p.identity, old(World(p, s)), World(p, s))
    ensures old(Paired(p, s)) ==> AtMost(old(Committed(p.ledger)), Committed(p.ledger), batch)
    ensures r.Ok? ==> InStep(World(p, s)) && Answered(World(p, s), batch, r.value)
    ensures healthy && Matched(p, s) && old(Reachable(p.ledger, s.ledger)) ==>
              LedgerOk(p.identity, Reconciled(old(p.ledger))) && (r, p.ledger) == CommitOn(Reconciled(old(p.ledger)), p.identity, batch, capture)
    ensures healthy && Matched(p, s) && old(Reachable(p.ledger, s.ledger)) ==>
              Obeys(p.identity, old(Committed(p.ledger)), old(Idle(p.ledger.publication)), batch, capture, r, p.ledger.applied)
  {
    hide Obeys;
    ghost var w := World(p, s);
    var recovered := Recover(p, s, healthy);
    if recovered.Err? {
      return Err(recovered.error);
    }
    ghost var x := World(p, s);
    CommitObeys(p.ledger, p.identity, batch, capture);
    r := CommitInStep(p, s, batch, capture, healthy);
    LeadsOn(p.identity, w, x, World(p, s));
  }

  method CommitInStep(p: Node, s: Node, batch: Batch, capture: Capture, healthy: bool) returns (r: Outcome<WriteResult>)
    requires Paired(p, s) && InStep(World(p, s))
    modifies p, s
    ensures Paired(p, s) && Leads(p.identity, old(World(p, s)), World(p, s))
    ensures AtMost(old(p.ledger.applied), Committed(p.ledger), batch)
    ensures r.Ok? ==> InStep(World(p, s)) && Answered(World(p, s), batch, r.value)
    ensures healthy ==> (r, p.ledger) == CommitOn(old(p.ledger), p.identity, batch, capture)
  {
    hide Journals, Slots, RowsHold, ReceiptsHold, MarkersHold, Leads, PrepareOn, CompletedOn, ChainOk, PublicationOk;
    ghost var id, w := p.identity, World(p, s);
    LeadsNowhere(id, w);
    var lost := Lost(healthy);
    var completed := p.CompletedResult(batch);
    if lost {
      return Err(Unreachable);
    }
    if completed.Err? {
      return Err(completed.error);
    }
    if completed.value.Some? {
      CompletedAnswers(id, w, batch);
      return Ok(completed.value.value);
    }
    r := CommitNew(p, s, batch, capture, healthy);
  }

  method CommitNew(p: Node, s: Node, batch: Batch, capture: Capture, healthy: bool) returns (r: Outcome<WriteResult>)
    requires Paired(p, s) && InStep(World(p, s)) && CompletedOn(p.ledger, p.identity, batch) == Ok(None)
    modifies p, s
    ensures Paired(p, s) && Leads(p.identity, old(World(p, s)), World(p, s))
    ensures AtMost(old(p.ledger.applied), Committed(p.ledger), batch)
    ensures r.Ok? ==> InStep(World(p, s)) && Answered(World(p, s), batch, r.value)
    ensures healthy ==> (r, p.ledger) == CommitOn(old(p.ledger), p.identity, batch, capture)
  {
    hide Journals, Slots, RowsHold, ReceiptsHold, MarkersHold, Leads, PrepareOn, StageOn, CompletedOn, ChainOk, PublicationOk;
    ghost var id, w := p.identity, World(p, s);
    var e := PrepareLocal(p, s, batch, capture, healthy);
    ghost var x := World(p, s);
    if e.Err? {
      return Err(e.error);
    }
    var staged := StageNew(p, s, e.value, healthy);
    ghost var y := World(p, s);
    LeadsOn(id, w, x, y);
    if staged.Err? {
      return Err(staged.error);
    }
    r := Finish(p, s, e.value.body, batch.operationId, healthy);
    LeadsOn(id, w, y, World(p, s));
    if r.Ok? {
      PrefixLast(w.p.applied, e.value.body);
    }
  }

  lemma PrefixLast(a: seq<Body>, b: Body)
    ensures a <= a + [b] && (a + [b])[|a|] == b
  {
  }

  /** A receipt that matches a request stands for that very request. */
  lemma CompletedAnswers(id: Identity, w: Pair, batch: Batch)
    requires LedgerOk(id, w.p) && w.p.applied == w.s.applied
    requires CompletedOn(w.p, id, batch).Ok? && CompletedOn(w.p, id, batch).value.Some?
    ensures Answered(w, batch, CompletedOn(w.p, id, batch).value.value)
  {
    var at := Position(Full(w.p), batch.operationId);
    assert LinkOk(id, Full(w.p), at - 1);
    assert Full(w.p)[at - 1] == w.p.applied[at - 1];
  }
}
