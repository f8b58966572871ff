/** Installing a complete journal on an empty secondary by replaying it. */
module Histories {
  import opened Basics
  import opened Reference
  import opened Ledgers
  import opened Tables
  import opened Nodes

  /** The entries of a history, all applied. */
  function EntriesOf(a: seq<Body>): seq<Entry> {
    seq(|a|, i requires 0 <= i < |a| => Sealed(a[i], Applied))
  }

  function Bodies(es: seq<Entry>): seq<Body> {
    seq(|es|, i requires 0 <= i < |es| => es[i].body)
  }

  /** What a replay accepts: applied entries of one well-formed chain, in order. */
  ghost predicate Replayable(id: Identity, es: seq<Entry>) {
    ChainOk(id, Bodies(es)) && |es| <= MAX_SEQUENCE && es == EntriesOf(Bodies(es))
  }

  function Empty(generation: nat): Ledger {
    Ledger([], None, {}, None, None, None, generation, false)
  }

  lemma PendingOk(id: Identity, l: Ledger, b: Body)
    requires LedgerOk(id, l) && l.pending.None? && ChainOk(id, l.applied + [b]) && |l.applied| < MAX_SEQUENCE
    ensures LedgerOk(id, l.(pending := Some(Pending(b, Decided)))) && b.sequence == |l.applied| + 1
  {
    assert Full(l.(pending := Some(Pending(b, Decided)))) == l.applied + [b];
    assert LinkOk(id, l.applied + [b], |l.applied|);
  }

  /** Appending an applied body to a node with nothing pending. */
  lemma AppendApplied(c: Database, id: Identity, l: Ledger, b: Body)
    requires Represents(c, id, l) && l.pending.None? && ChainOk(id, l.applied + [b]) && |l.applied| < MAX_SEQUENCE
    ensures Represents(AppliedTables(c, |l.applied| + 1, b), id, l.(applied := l.applied + [b]))
  {
    hide RowsHold, ReceiptsHold, MarkersHold, ChainOk, PublicationOk;
    var p := Pending(b, Decided);
    var m := l.(pending := Some(p));
    PendingOk(id, l, b);
    WritePending(c, id, l, p, c.revision);
    SettledKeeps(m, id);
    var d := c.(log := c.log[b.sequence := Sealed(b, Decided)], revision := c.revision);
    WriteApplied(d, id, m);
    assert AppliedTables(d, |l.applied| + 1, b) == AppliedTables(c, |l.applied| + 1, b);
  }

  /** What fitting the history comes to for one entry. */
  lemma FitsIff(id: Identity, l: Ledger, e: Entry)
    requires LedgerOk(id, l) && l.pending.None?
    ensures Fits(id, l, e) <==>
              && ValidEntry(e, id) && FitsPage(e) && e.state.Applied? && e.body.sequence == |l.applied| + 1
              && e.body.before == ViewAt(l.applied, |l.applied|) && e.body.sequence <= MAX_SEQUENCE
              && e.body.batch.operationId != [] && Position(l.applied, e.body.batch.operationId) == 0
  {
    var a := l.applied + [e.body];
    assert Full(l) == l.applied;
    if Fits(id, l, e) {
      assert LinkOk(id, a, |l.applied|);
      assert forall i :: 0 <= i < |l.applied| ==> a[i] == l.applied[i];
      assert a[|l.applied|] == e.body;
    } else if ValidEntry(e, id) && FitsPage(e) && e.state.Applied? && e.body.sequence == |l.applied| + 1
              && e.body.before == ViewAt(l.applied, |l.applied|) && e.body.sequence <= MAX_SEQUENCE
              && e.body.batch.operationId != [] && Position(l.applied, e.body.batch.operationId) == 0 {
      ExtendChain(id, l.applied, e.body);
      assert false;
    }
  }

  /** One entry of the history. */
  method ReplayEntry(c: Database, id: Identity, e: Entry, n: nat, ghost l: Ledger) returns (r: Outcome<Database>)
    requires Represents(c, id, l) && l.pending.None? && l.missing == {} && n == |l.applied|
    ensures r.Ok? <==> Fits(id, l, e)
    ensures r.Ok? ==> Represents(r.value, id, l.(applied := l.applied + [e.body]))
  {
    FitsIff(id, l, e);
    hide Fits, ChainOk, PublicationOk, MarkersHold;
    assert c.view == ViewAt(l.applied, |l.applied|);
    if !ValidEntry(e, id) || !FitsPage(e) || !e.state.Applied? || e.body.sequence != n + 1 || e.body.before != c.view {
      return Err(MalformedEntry);
    }
    RowsOf(c, id, l, e.body.batch.operationId);
    assert Full(l) == l.applied;
    var row := WriteRow(c, e);
    if row.Err? {
      return Err(Reason(row));
    }
    var receipt := InsertReceipt(c, e, id, l);
    if receipt.Err? {
      return Err(Reason(receipt));
    }
    AppendApplied(c, id, l, e.body);
    r := Ok(row.value.(receipts := receipt.value.receipts, view := e.body.after));
    assert r.value == AppliedTables(c, n + 1, e.body);
  }

  /** The entry is applied and continues the node's history. */
  ghost predicate Fits(id: Identity, l: Ledger, e: Entry) {
    e == Sealed(e.body, Applied) && ChainOk(id, l.applied + [e.body]) && |l.applied| < MAX_SEQUENCE
  }

  /** Replaying succeeds exactly on well-formed histories, and leaves a node that holds just
      that history. */
  method ReplayHistory(c: Database, id: Identity, es: seq<Entry>, ghost generation: nat) returns (r: Outcome<Database>)
    requires Represents(c, id, Empty(generation))
    ensures r.Ok? <==> Replayable(id, es)
    ensures r.Ok? ==> Represents(r.value, id, Empty(generation).(applied := Bodies(es)))
  {
    hide Represents, LinkOk;
    var tx, i := c, 0;
    assert Bodies(es)[..0] == [];
    while i < |es|
      invariant i <= |es| && Represents(tx, id, Empty(generation).(applied := Bodies(es)[..i]))
      invariant ChainOk(id, Bodies(es)[..i]) && i <= MAX_SEQUENCE && forall k :: 0 <= k < i ==> es[k] == Sealed(es[k].body, Applied)
    {
      ghost var l := Empty(generation).(applied := Bodies(es)[..i]);
      assert Bodies(es)[..i + 1] == l.applied + [es[i].body];
      if Replayable(id, es) {
        PrefixChainOk(id, Bodies(es)[..i + 1], Bodies(es));
        assert es[i] == EntriesOf(Bodies(es))[i];
      }
      var next := ReplayEntry(tx, id, es[i], i, l);
      if next.Err? {
        return next;
      }
      tx, i := next.value, i + 1;
    }
    assert Bodies(es)[..i] == Bodies(es);
    assert es == EntriesOf(Bodies(es));
    r := Ok(tx);
  }
}
