/** The SQL tables behind one node, and the read paths that re-validate them. */
module Tables {
  import opened Basics
  import opened Reference
  import opened Ledgers

  /** A published artifact: its record and the copied rows. */
  datatype Published = Published(record: Record, view: View, receipts: seq<Receipt>)

  /** Journal and receipt rows are keyed by sequence. `revision` changes with every
      journal write. */
  datatype Database = Database(
    log: map<nat, Entry>, view: View, receipts: map<nat, Receipt>, base: Option<Checkpoint>,
    readiness: Option<Checkpoint>, published: Option<Published>, generation: nat, revision: nat,
    transferring: bool)

  function PublishedOf(id: Identity, l: Ledger): Option<Published>
    requires PublicationOk(id, l)
  {
    if l.publication.None? then None
    else
      var n := l.publication.value.proposal.checkpoint.sequence;
      Some(Published(l.publication.value, ViewAt(l.applied, n), ReceiptsAt(l.applied, n)))
  }

  ghost predicate RowsHold(log: map<nat, Entry>, l: Ledger) {
    && (forall i :: i in log <==> Present(l, i))
    && (forall i :: i in log ==> log[i] == EntryAt(l, i))
  }

  ghost predicate ReceiptsHold(receipts: map<nat, Receipt>, a: seq<Body>) {
    && (forall i :: i in receipts <==> 1 <= i <= |a|)
    && (forall i :: i in receipts ==> receipts[i] == ReceiptOf(a[i - 1]))
  }

  ghost predicate MarkersHold(c: Database, id: Identity, l: Ledger)
    requires LedgerOk(id, l)
  {
    && c.view == ViewAt(l.applied, |l.applied|)
    && c.base == BaseOf(id, l)
    && c.readiness == l.ready
    && c.published == PublishedOf(id, l)
    && c.generation == l.generation
    && c.transferring == l.transferring
  }

  /** The tables hold exactly this ledger. */
  ghost predicate Represents(c: Database, id: Identity, l: Ledger) {
    LedgerOk(id, l) && RowsHold(c.log, l) && ReceiptsHold(c.receipts, l.applied) && MarkersHold(c, id, l)
  }

  // ---------------------------------------------------------------- single rows

  ghost function FindOn(l: Ledger, op: Text): Option<Entry> {
    var at := Position(Full(l), op);
    if at > 0 && Present(l, at) then Some(EntryAt(l, at)) else None
  }

  lemma FindRow(c: Database, id: Identity, l: Ledger, op: Text)
    requires Represents(c, id, l)
    ensures FindOn(l, op).None? <==> forall i :: i in c.log ==> c.log[i].body.batch.operationId != op
    ensures forall i :: i in c.log && c.log[i].body.batch.operationId == op ==> FindOn(l, op) == Some(c.log[i])
  {
    assert forall i :: i in c.log ==> c.log[i].body == Full(l)[i - 1];
    forall i | i in c.log && c.log[i].body.batch.operationId == op
      ensures FindOn(l, op) == Some(c.log[i])
    {
      PositionUnique(Full(l), op, i - 1);
    }
    var at := Position(Full(l), op);
    assert at > 0 && Present(l, at) ==> at in c.log;
  }

  method ByOperation(c: Database, op: Text, ghost id: Identity, ghost l: Ledger) returns (r: Option<Entry>)
    ensures Represents(c, id, l) ==> r == FindOn(l, op)
    ensures r.Some? ==> r.value.body.batch.operationId == op && r.value in c.log.Values
  {
    if Represents(c, id, l) {
      FindRow(c, id, l, op);
    }
    if i :| i in c.log && c.log[i].body.batch.operationId == op {
      r := Some(c.log[i]);
    } else {
      r := None;
    }
  }

  lemma ReceiptRow(c: Database, id: Identity, l: Ledger, op: Text)
    requires Represents(c, id, l)
    ensures ReceiptOn(l, op).None? <==> forall i :: i in c.receipts ==> c.receipts[i].result.operationId != op
    ensures forall i :: i in c.receipts && c.receipts[i].result.operationId == op ==>
              ReceiptOn(l, op) == Some(c.receipts[i]) && i > 0 && op != [] && c.receipts[i].result.sequence == i
  {
    var f := Full(l);
    assert forall i :: 0 <= i < |l.applied| ==> f[i] == l.applied[i];
    forall i | i in c.receipts && c.receipts[i].result.operationId == op
      ensures ReceiptOn(l, op) == Some(c.receipts[i]) && i > 0 && op != [] && c.receipts[i].result.sequence == i
    {
      assert LinkOk(id, f, i - 1);
      PositionUnique(f, op, i - 1);
    }
    var at := Position(f, op);
    assert 0 < at <= |l.applied| ==> at in c.receipts;
  }

  /** The stored receipt of an operation; its key and versions must agree with it. */
  method GetReceipt(c: Database, op: Text, ghost id: Identity, ghost l: Ledger) returns (r: Outcome<Option<Receipt>>)
    ensures Represents(c, id, l) ==> r == Ok(ReceiptOn(l, op))
    ensures r.Ok? && r.value.Some? ==> r.value.value.result.operationId == op && r.value.value in c.receipts.Values
  {
    if Represents(c, id, l) {
      ReceiptRow(c, id, l, op);
    }
    if i :| i in c.receipts && c.receipts[i].result.operationId == op {
      var x := c.receipts[i];
      if i == 0 || op == [] || x.result.sequence != i || x.fingerprintVersion != 1 || x.resultVersion != 1 {
        return Err(ReceiptMismatch);
      }
      r := Ok(Some(x));
    } else {
      r := Ok(None);
    }
  }

  lemma StoredEntry(c: Database, id: Identity, l: Ledger, e: Entry)
    requires Represents(c, id, l) && e in c.log.Values
    ensures e.digest == Checksum(e.body) && e.body.batch.operationId != [] && 0 < e.body.sequence <= MAX_SEQUENCE
    ensures ReceiptOn(l, e.body.batch.operationId) == if e.state.Applied? then Some(ReceiptOf(e.body)) else None
  {
    var i :| i in c.log && c.log[i] == e;
    assert e == EntryAt(l, i);
    assert LinkOk(id, Full(l), i - 1);
    assert e.body == Full(l)[i - 1];
    PositionUnique(Full(l), e.body.batch.operationId, i - 1);
  }

  /** An applied row must have exactly its own receipt, any other row none. */
  method ValidateEntry(c: Database, e: Entry, ghost id: Identity, ghost l: Ledger) returns (r: Outcome<Option<Receipt>>)
    ensures Represents(c, id, l) && e in c.log.Values ==> r == Ok(ReceiptOn(l, e.body.batch.operationId))
    ensures r.Ok? && e.state.Applied? ==> r.value == Some(ReceiptOf(e.body)) && r.value.value in c.receipts.Values && e.digest == Checksum(e.body)
    ensures r.Ok? && !e.state.Applied? ==> r.value == None
  {
    if Represents(c, id, l) && e in c.log.Values {
      StoredEntry(c, id, l, e);
    }
    r := GetReceipt(c, e.body.batch.operationId, id, l);
    if r.Err? {
      return r;
    }
    if e.state.Applied? {
      if e.digest != Checksum(e.body) || e.body.batch.operationId == [] || e.body.sequence == 0 || e.body.sequence > MAX_SEQUENCE {
        return Err(MalformedEntry);
      }
      if r.value != Some(ReceiptOf(e.body)) {
        return Err(ReceiptMismatch);
      }
    } else if r.value != None {
      return Err(ReceiptMismatch);
    }
  }

  // ---------------------------------------------------------------- journal head

  datatype Head = Head(base: Option<Checkpoint>, identity: Identity, revision: nat, generation: nat, length: nat)

  function BaseFloor(c: Database): nat {
    if c.base.Some? then c.base.value.sequence else 0
  }

  /** The sequences in (lo, hi]. */
  function Range(lo: nat, hi: nat): (r: set<nat>)
    requires lo <= hi
    ensures forall k: nat :: k in r <==> lo < k <= hi
    ensures |r| == hi - lo
    decreases hi - lo
  {
    if lo < hi then Range(lo, hi - 1) + {hi} else {}
  }

  lemma {:induction false} SameSizeSubset(a: set<nat>, b: set<nat>)
    requires a <= b && |a| == |b|
    ensures a == b
  {
    if a != {} {
      var x :| x in a;
      SameSizeSubset(a - {x}, b - {x});
    }
  }

  function Above(c: Database, floor: nat): set<nat> {
    set k | k in c.log && k > floor
  }

  ghost function HeadOn(c: Database, id: Identity, l: Ledger): Head
    requires LedgerOk(id, l)
  {
    Head(BaseOf(id, l), id, c.revision, l.generation, Length(l))
  }

  lemma RepresentedRows(c: Database, id: Identity, l: Ledger)
    requires Represents(c, id, l)
    ensures 0 !in c.log && BaseFloor(c) == Floor(l)
    ensures Above(c, Floor(l)) == Range(Floor(l), Length(l))
    ensures |Above(c, Floor(l))| == Length(l) - Floor(l)
  {
    assert !Present(l, 0);
  }

  /** Length and gap check of the journal above the base. A head exists exactly when the
      rows above the base are contiguous. */
  method JournalHead(c: Database, id: Identity, ghost l: Ledger) returns (r: Outcome<Head>)
    ensures Represents(c, id, l) ==> r == Ok(HeadOn(c, id, l))
    ensures r.Ok? ==> r.value == Head(c.base, id, c.revision, c.generation, r.value.length)
    ensures r.Ok? ==> BaseFloor(c) <= r.value.length <= MAX_SEQUENCE && Above(c, BaseFloor(c)) == Range(BaseFloor(c), r.value.length)
  {
    if Represents(c, id, l) {
      RepresentedRows(c, id, l);
    }
    if 0 in c.log {
      return Err(SequenceGap);
    }
    var floor := BaseFloor(c);
    var above := set k | k in c.log && k > floor;
    var length := floor + |above|;
    if (exists k :: k in above && k > length) || (above != {} && length !in above) || length > MAX_SEQUENCE {
      return Err(SequenceGap);
    }
    SameSizeSubset(above, Range(floor, length));
    r := Ok(Head(c.base, id, c.revision, c.generation, length));
  }

  predicate Resolved(c: Database) {
    forall i :: i in c.log ==> c.log[i].state.Applied?
  }

  lemma ResolvedIff(c: Database, id: Identity, l: Ledger)
    requires Represents(c, id, l)
    ensures Resolved(c) <==> l.pending.None?
  {
    if l.pending.Some? {
      assert Present(l, Length(l));
    }
  }

  // ---------------------------------------------------------------- checkpoints

  predicate ReceiptOk(x: Receipt, n: nat) {
    x.result.sequence == n && x.result.operationId != [] && x.fingerprintVersion == 1 && x.resultVersion == 1
  }

  /** The stored receipts from 1 on are just these. */
  predicate Receipted(c: Database, receipts: seq<Receipt>) {
    forall n :: 1 <= n <= |receipts| ==> n in c.receipts && c.receipts[n] == receipts[n - 1]
  }

  /** The receipts of sequences 1 to `until`, which must all be there and in order. */
  method ReceiptPrefix(c: Database, until: nat, ghost id: Identity, ghost l: Ledger) returns (r: Outcome<seq<Receipt>>)
    ensures Represents(c, id, l) && until <= |l.applied| ==> r == Ok(ReceiptsAt(l.applied, until))
    ensures r.Ok? ==> |r.value| == until
    ensures r.Ok? ==> forall n :: 1 <= n <= until ==> n in c.receipts && c.receipts[n] == r.value[n - 1] && ReceiptOk(c.receipts[n], n)
  {
    if 0 in c.receipts {
      return Err(ReceiptMismatch);
    }
    var prefix: seq<Receipt> := [];
    while |prefix| < until
      invariant |prefix| <= until
      invariant forall n :: 1 <= n <= |prefix| ==> n in c.receipts && c.receipts[n] == prefix[n - 1] && ReceiptOk(c.receipts[n], n)
    {
      var n := |prefix| + 1;
      if Represents(c, id, l) && until <= |l.applied| {
        StoredReceipt(c, id, l, n);
      }
      if n !in c.receipts || !ReceiptOk(c.receipts[n], n) {
        return Err(ReceiptMismatch);
      }
      prefix := prefix + [c.receipts[n]];
    }
    if Represents(c, id, l) && until <= |l.applied| {
      assert forall i :: 0 <= i < until ==> prefix[i] == c.receipts[i + 1];
      assert prefix == ReceiptsAt(l.applied, until);
    }
    r := Ok(prefix);
  }

  lemma StoredReceipt(c: Database, id: Identity, l: Ledger, n: nat)
    requires Represents(c, id, l) && 1 <= n <= |l.applied|
    ensures n in c.receipts && ReceiptOk(c.receipts[n], n)
  {
    assert LinkOk(id, Full(l), n - 1);
    assert Full(l)[n - 1] == l.applied[n - 1];
  }

  ghost function CalculateOn(l: Ledger, id: Identity, quiescent: bool, until: Option<nat>): Outcome<Checkpoint>
    requires LedgerOk(id, l)
  {
    if until.Some? && (until.value < Floor(l) || until.value > MAX_SEQUENCE) then Err(PrefixBeforeBase)
    else if until.None? then
      if quiescent && l.pending.Some? then Err(Unresolved) else Ok(Current(id, l))
    else if until.value <= |l.applied| then Ok(CheckpointAt(id, l.applied, until.value))
    else if l.pending.Some? then Err(Unresolved)
    else Err(MissingPrefix)
  }

  /** The base row, if any, must be a format-1 checkpoint of this identity whose receipt
      digest the receipt table still reproduces. */
  method CheckBase(c: Database, id: Identity, ghost l: Ledger) returns (ok: bool)
    ensures Represents(c, id, l) ==> ok
    ensures ok && c.base.Some? ==> c.base.value.format == 1 && c.base.value.identity == id
  {
    if c.base.None? {
      return true;
    }
    var prefix := ReceiptPrefix(c, c.base.value.sequence, id, l);
    ok := prefix.Ok? && c.base.value.format == 1 && c.base.value.identity == id && c.base.value.receipts == prefix.value;
  }

  /** Row `n` extends a journal whose view is `previous`. */
  predicate Extends(c: Database, id: Identity, n: nat, previous: View) {
    && n in c.log
    && c.log[n].body.batch.identity == id && c.log[n].digest == Checksum(c.log[n].body)
    && c.log[n].body.sequence == n && c.log[n].body.before == previous
    && (c.log[n].state.Applied? ==> ReceiptOf(c.log[n].body) in c.receipts.Values)
  }

  function RowView(c: Database, n: nat): View {
    if n <= BaseFloor(c) then (if c.base.Some? then c.base.value.view else EMPTY_VIEW)
    else if n in c.log then c.log[n].body.after else EMPTY_VIEW
  }

  method CheckRow(c: Database, id: Identity, n: nat, previous: View, ghost l: Ledger) returns (ok: bool)
    requires n in c.log
    ensures ok ==> Extends(c, id, n, previous)
    ensures Represents(c, id, l) && previous == ViewAt(l.applied, |l.applied|) && n == |l.applied| + 1 ==> ok
    ensures Represents(c, id, l) && 1 <= n <= |l.applied| && previous == ViewAt(l.applied, n - 1) ==> ok
  {
    var e := c.log[n];
    assert e in c.log.Values;
    if Represents(c, id, l) {
      assert LinkOk(id, Full(l), n - 1) && Full(l)[n - 1] == e.body;
      StoredEntry(c, id, l, e);
    }
    if e.body.batch.identity != id || (!e.state.Applied? && e.digest != Checksum(e.body)) || e.body.batch.operationId == [] {
      return false;
    }
    var v := ValidateEntry(c, e, id, l);
    ok := v.Ok? && e.body.sequence == n && e.body.before == previous;
  }

  predicate Linked(c: Database, id: Identity, n: nat)
    requires n > 0
  {
    Extends(c, id, n, RowView(c, n - 1)) && c.log[n].state.Applied?
  }

  /** The rows in (floor, applied] are applied, link up, and lead to `previous`. */
  ghost predicate Walked(c: Database, id: Identity, applied: nat, previous: View) {
    && BaseFloor(c) <= applied
    && (forall n: nat :: BaseFloor(c) < n <= applied ==> Linked(c, id, n))
    && previous == RowView(c, applied)
  }

  /** On tables that hold ledger l, the walk has reached this point of it. */
  ghost predicate WalkedOn(id: Identity, l: Ledger, applied: nat, pending: bool, digest: Chain, previous: View) {
    && Floor(l) <= applied <= |l.applied|
    && (pending ==> l.pending.Some? && applied == |l.applied|)
    && digest == ChainAt(id, l.applied, applied)
    && previous == ViewAt(l.applied, applied)
  }

  lemma StartOfWalk(c: Database, id: Identity, l: Ledger)
    requires Represents(c, id, l)
    ensures WalkedOn(id, l, BaseFloor(c), false,
                     if c.base.Some? then c.base.value.journal else Seed(id),
                     if c.base.Some? then c.base.value.view else EMPTY_VIEW)
    ensures 0 !in c.log && BaseFloor(c) == Floor(l)
  {
    assert !Present(l, 0);
  }

  /** The loop over journal rows above the base up to `limit`. */
  method Walk(c: Database, id: Identity, limit: nat, ghost l: Ledger)
    returns (r: Outcome<()>, applied: nat, pending: bool, digest: Chain, previous: View)
    requires BaseFloor(c) <= limit
    ensures Represents(c, id, l) ==> r.Ok? && WalkedOn(id, l, applied, pending, digest, previous)
    ensures r.Ok? ==> Walked(c, id, applied, previous) && applied <= limit && (pending ==> applied < limit)
    ensures r.Ok? ==> forall k :: k in c.log ==> !((if pending then applied + 1 else applied) < k <= limit)
  {
    applied, pending := BaseFloor(c), false;
    digest := if c.base.Some? then c.base.value.journal else Seed(id);
    previous := if c.base.Some? then c.base.value.view else EMPTY_VIEW;
    if Represents(c, id, l) {
      StartOfWalk(c, id, l);
    }
    while exists k :: k in c.log && (if pending then applied + 1 else applied) < k <= limit
      invariant Walked(c, id, applied, previous)
      invariant Represents(c, id, l) ==> WalkedOn(id, l, applied, pending, digest, previous)
      invariant applied <= limit && (pending ==> applied < limit)
      decreases limit - applied, if pending then 0 else 1
    {
      if Represents(c, id, l) {
        RowsRemain(c, id, l, applied, pending);
      }
      if pending {
        return Err(ChainMismatch), applied, pending, digest, previous;
      }
      r, applied, pending, digest, previous := Visit(c, id, applied, digest, previous, l);
      if r.Err? {
        return;
      }
    }
    r := Ok(());
  }

  /** One row of the walk. */
  method Visit(c: Database, id: Identity, at: nat, digest: Chain, previous: View, ghost l: Ledger)
    returns (r: Outcome<()>, applied: nat, pending: bool, digest': Chain, previous': View)
    requires Walked(c, id, at, previous)
    requires Represents(c, id, l) ==> WalkedOn(id, l, at, false, digest, previous) && at + 1 in c.log && at < Length(l)
    ensures Represents(c, id, l) ==> r.Ok? && WalkedOn(id, l, applied, pending, digest', previous')
    ensures r.Ok? ==> Walked(c, id, applied, previous') && applied == if pending then at else at + 1
  {
    var n := at + 1;
    applied, pending, digest', previous' := at, false, digest, previous;
    if n !in c.log {
      return Err(ChainMismatch), applied, pending, digest', previous';
    }
    var ok := CheckRow(c, id, n, previous, l);
    if !ok {
      return Err(ChainMismatch), applied, pending, digest', previous';
    }
    if Represents(c, id, l) {
      assert c.log[n] == EntryAt(l, n);
    }
    if c.log[n].state.Applied? {
      digest' := Link(digest, c.log[n].digest);
      applied := n;
      previous' := c.log[n].body.after;
    } else {
      pending := true;
    }
    r := Ok(());
  }

  lemma RowsRemain(c: Database, id: Identity, l: Ledger, applied: nat, pending: bool)
    requires Represents(c, id, l) && Floor(l) <= applied <= |l.applied| && (pending ==> l.pending.Some? && applied == |l.applied|)
    requires exists k :: k in c.log && (if pending then applied + 1 else applied) < k
    ensures !pending && applied < Length(l) && applied + 1 in c.log && c.log[applied + 1] == EntryAt(l, applied + 1)
  {
    assert Present(l, applied + 1);
  }

  /** The checkpoint of the journal up to `until` (or of all applied rows). It succeeds on
      every well-formed node with the checkpoint of its history, and whenever it succeeds
      the rows above the base are applied, linked view to view, each with its receipt. */
  method Calculate(c: Database, id: Identity, quiescent: bool, until: Option<nat>, ghost l: Ledger) returns (r: Outcome<Checkpoint>)
    ensures Represents(c, id, l) ==> r == CalculateOn(l, id, quiescent, until)
    ensures r.Ok? ==> Walked(c, id, r.value.sequence, r.value.view)
    ensures r.Ok? && until.Some? ==> r.value.sequence == until.value
    ensures r.Ok? && until.None? ==> |c.receipts| == r.value.sequence
    ensures r.Ok? ==> |r.value.receipts| == r.value.sequence && Receipted(c, r.value.receipts)
  {
    if Represents(c, id, l) {
      StartOfWalk(c, id, l);
    }
    if 0 in c.log {
      return Err(SequenceGap);
    }
    var baseOk := CheckBase(c, id, l);
    if !baseOk || BaseFloor(c) > MAX_SEQUENCE {
      return Err(InvalidBase);
    }
    if until.Some? && (until.value < BaseFloor(c) || until.value > MAX_SEQUENCE) {
      return Err(PrefixBeforeBase);
    }
    var limit := if until.Some? then until.value else MAX_SEQUENCE;
    var ok, applied, pending, digest, previous := Walk(c, id, limit, l);
    if ok.Err? {
      return Err(ok.error);
    }
    r := Finish(c, id, quiescent, until, applied, pending, digest, previous, l);
  }

  /** The checks after the walk. */
  method Finish(c: Database, id: Identity, quiescent: bool, until: Option<nat>, applied: nat, pending: bool,
                digest: Chain, previous: View, ghost l: Ledger) returns (r: Outcome<Checkpoint>)
    requires Represents(c, id, l) ==> WalkedOn(id, l, applied, pending, digest, previous)
    requires until.Some? ==> BaseFloor(c) <= until.value <= MAX_SEQUENCE
    requires forall k :: k in c.log ==> !((if pending then applied + 1 else applied) < k <= (if until.Some? then until.value else MAX_SEQUENCE))
    requires until.Some? && Represents(c, id, l) ==> applied <= until.value && (pending ==> applied < until.value)
    ensures Represents(c, id, l) ==> r == CalculateOn(l, id, quiescent, until)
    ensures r.Ok? ==> r.value.sequence == applied && r.value.view == previous
    ensures r.Ok? && until.Some? ==> applied == until.value
    ensures r.Ok? && until.None? ==> |c.receipts| == applied
    ensures r.Ok? ==> |r.value.receipts| == r.value.sequence && Receipted(c, r.value.receipts)
  {
    if Represents(c, id, l) {
      ReceiptCount(c, id, l);
      EndOfWalk(c, id, l, if until.Some? then until.value else MAX_SEQUENCE, applied, pending);
    }
    if (quiescent || until.Some?) && pending {
      return Err(Unresolved);
    }
    if until.Some? && until.value != applied {
      return Err(MissingPrefix);
    }
    if until.None? && |c.receipts| != applied {
      return Err(OrphanReceipt);
    }
    var prefix := ReceiptPrefix(c, applied, id, l);
    if prefix.Err? {
      return Err(ReceiptMismatch);
    }
    r := Ok(Checkpoint(1, id, applied, previous, digest, prefix.value));
  }

  lemma EndOfWalk(c: Database, id: Identity, l: Ledger, limit: nat, applied: nat, pending: bool)
    requires Represents(c, id, l) && Floor(l) <= applied <= |l.applied| && applied <= limit
    requires pending ==> l.pending.Some? && applied == |l.applied|
    requires !pending ==> applied + 1 !in c.log || applied == limit
    ensures limit <= |l.applied| && !pending ==> applied == limit
    ensures limit > |l.applied| ==> applied == |l.applied| && (pending <==> l.pending.Some?)
  {
    if !pending && applied < limit {
      assert !Present(l, applied + 1);
    }
  }

  lemma ReceiptCount(c: Database, id: Identity, l: Ledger)
    requires Represents(c, id, l)
    ensures |c.receipts| == |l.applied|
  {
    assert c.receipts.Keys == Range(0, |l.applied|);
  }

  ghost function CurrentOn(l: Ledger, id: Identity, quiescent: bool): Outcome<Checkpoint> {
    if quiescent && l.pending.Some? then Err(Unresolved) else Ok(Current(id, l))
  }

  /** The checkpoint of all applied rows, checked against the application data. */
  method CurrentCheckpoint(c: Database, id: Identity, quiescent: bool, ghost l: Ledger) returns (r: Outcome<Checkpoint>)
    ensures Represents(c, id, l) ==> r == CurrentOn(l, id, quiescent)
    ensures r.Ok? ==> Walked(c, id, r.value.sequence, r.value.view) && r.value.view == c.view && |c.receipts| == r.value.sequence
    ensures r.Ok? ==> |r.value.receipts| == r.value.sequence && Receipted(c, r.value.receipts)
  {
    r := Calculate(c, id, quiescent, None, l);
    if r.Ok? && r.value.view != c.view {
      return Err(DataMismatch);
    }
  }

  /** Read admission: the stored marker must still be the current checkpoint. */
  method VerifiedView(c: Database, id: Identity, ghost l: Ledger) returns (r: Outcome<Option<View>>)
    ensures Represents(c, id, l) ==>
              r == Ok(if l.ready == Some(Current(id, l)) then Some(ViewAt(l.applied, |l.applied|)) else None)
    ensures r.Ok? && r.value.Some? ==> r.value.value == c.view && c.readiness.Some? && c.readiness.value.view == c.view
  {
    if c.readiness.None? {
      return Ok(None);
    }
    var actual := CurrentCheckpoint(c, id, false, l);
    if actual.Err? {
      return Err(actual.error);
    }
    r := Ok(if actual.value == c.readiness.value then Some(c.view) else None);
  }

  /** The published artifact must be the checkpoint it names, in this node's history. */
  method ValidatePublication(c: Database, id: Identity, ghost l: Ledger) returns (r: Outcome<Option<Record>>)
    ensures Represents(c, id, l) ==> r == Ok(l.publication)
    ensures r.Ok? && r.value.Some? ==>
              && c.published.Some? && r.value.value == c.published.value.record
              && c.published.value.view == r.value.value.proposal.checkpoint.view
              && c.published.value.receipts == r.value.value.proposal.checkpoint.receipts
  {
    if c.published.None? {
      return Ok(None);
    }
    var a := c.published.value;
    var cp := a.record.proposal.checkpoint;
    if Represents(c, id, l) {
      ArtifactOk(c, id, l);
    }
    if cp.identity != id || cp.format != 1 || cp.sequence != |a.receipts| {
      return Err(DataMismatch);
    }
    if a.view != cp.view || (exists i :: 0 <= i < |a.receipts| && !ReceiptOk(a.receipts[i], i + 1)) || a.receipts != cp.receipts {
      return Err(DataMismatch);
    }
    var again := Calculate(c, id, true, Some(cp.sequence), l);
    if again != Ok(cp) {
      return Err(DataMismatch);
    }
    r := Ok(Some(a.record));
  }

  lemma ArtifactOk(c: Database, id: Identity, l: Ledger)
    requires Represents(c, id, l) && c.published.Some?
    ensures l.publication == Some(c.published.value.record)
    ensures var cp := c.published.value.record.proposal.checkpoint;
            && Floor(l) <= cp.sequence <= |l.applied| && cp == CheckpointAt(id, l.applied, cp.sequence)
            && c.published.value.view == cp.view && c.published.value.receipts == cp.receipts
    ensures forall i :: 0 <= i < |c.published.value.receipts| ==> ReceiptOk(c.published.value.receipts[i], i + 1)
  {
    forall i | 0 <= i < |c.published.value.receipts|
      ensures ReceiptOk(c.published.value.receipts[i], i + 1)
    {
      StoredReceipt(c, id, l, i + 1);
    }
  }

  // ---------------------------------------------------------------- journal pages

  datatype Page = Page(head: Head, after: nat, entries: seq<Entry>)

  predicate CursorOk(head: Head, after: nat, limit: nat) {
    0 < limit <= MAX_PAGE_ENTRIES && after <= head.length && (if head.base.Some? then head.base.value.sequence else 0) <= after
  }

  function Bytes(es: seq<Entry>): nat {
    if es == [] then 0 else Bytes(es[..|es| - 1]) + Size(es[|es| - 1]) + 1
  }

  /** What a page must be to be accepted for a cursor. */
  predicate PageOk(page: Page, head: Head, after: nat, limit: nat) {
    && CursorOk(head, after, limit)
    && page.head == head && page.after == after
    && |page.entries| <= limit && |page.entries| <= head.length - after
    && (page.entries == [] ==> after == head.length)
    && Bytes(page.entries) <= MAX_PAGE_BYTES
    && forall i :: 0 <= i < |page.entries| ==> page.entries[i].body.sequence == after + i + 1 && ValidEntry(page.entries[i], head.identity)
  }

  method ValidatePage(page: Page, head: Head, after: nat, limit: nat) returns (r: Outcome<()>)
    ensures r.Ok? <==> PageOk(page, head, after, limit)
  {
    if !CursorOk(head, after, limit) {
      return Err(InvalidCursor);
    }
    if page.head != head || page.after != after || |page.entries| > limit || |page.entries| > head.length - after {
      return Err(StaleCursor);
    }
    if page.entries == [] && after != head.length {
      return Err(PrematureEnd);
    }
    var bytes, i := 0, 0;
    while i < |page.entries|
      invariant 0 <= i <= |page.entries|
      invariant bytes == Bytes(page.entries[..i]) && bytes <= MAX_PAGE_BYTES
      invariant forall j :: 0 <= j < i ==> page.entries[j].body.sequence == after + j + 1 && ValidEntry(page.entries[j], head.identity)
    {
      var e := page.entries[i];
      if e.body.sequence != after + i + 1 || !ValidEntry(e, head.identity) {
        return Err(SequenceGap);
      }
      assert page.entries[..i + 1][..i] == page.entries[..i];
      bytes := bytes + Size(e) + 1;
      BytesGrow(page.entries, i + 1);
      if bytes > MAX_PAGE_BYTES {
        return Err(EntryTooLarge);
      }
      i := i + 1;
    }
    assert page.entries[..i] == page.entries;
    r := Ok(());
  }

  lemma {:induction false} BytesGrow(es: seq<Entry>, i: nat)
    requires i <= |es|
    ensures Bytes(es[..i]) <= Bytes(es)
    decreases |es|
  {
    if i < |es| {
      assert es[..|es| - 1][..i] == es[..i];
      BytesGrow(es[..|es| - 1], i);
    } else {
      assert es[..i] == es;
    }
  }

  /** Entries of ledger l after a cursor, as many as a page may carry: it stops only at the
      row limit, at the end, or where the next row would break the byte budget. */
  ghost predicate PageOn(id: Identity, l: Ledger, after: nat, limit: nat, es: seq<Entry>) {
    && after + |es| <= Length(l) && |es| <= limit
    && (forall i :: 0 <= i < |es| ==> es[i] == EntryAt(l, after + i + 1))
    && (|es| == limit || after + |es| == Length(l) || Bytes(es) + Size(EntryAt(l, after + |es| + 1)) + 1 > MAX_PAGE_BYTES)
  }

  predicate RowIs(c: Database, n: nat, e: Entry) {
    n in c.log && c.log[n] == e && e.body.sequence == n
  }

  /** The rows after a cursor that one page carries. */
  ghost predicate Filled(c: Database, after: nat, limit: nat, length: nat, es: seq<Entry>) {
    && after + |es| <= length && |es| <= limit && Bytes(es) <= MAX_PAGE_BYTES
    && (forall i :: 0 <= i < |es| ==> RowIs(c, after + i + 1, es[i]))
    && (|es| == limit || after + |es| == length ||
        (after + |es| + 1 in c.log && Bytes(es) + Size(c.log[after + |es| + 1]) + 1 > MAX_PAGE_BYTES))
  }

  method FillPage(c: Database, after: nat, limit: nat, length: nat) returns (r: Outcome<seq<Entry>>)
    requires after <= length && forall n: nat :: after < n <= length ==> n in c.log
    ensures r.Ok? ==> Filled(c, after, limit, length, r.value)
    ensures (forall n: nat :: after < n <= length ==> c.log[n].body.sequence == n && Size(c.log[n]) < MAX_PAGE_BYTES) ==> r.Ok?
  {
    var entries: seq<Entry>, bytes := [], 0;
    while |entries| < limit && after + |entries| < length
      invariant bytes == Bytes(entries) <= MAX_PAGE_BYTES && |entries| <= limit && after + |entries| <= length
      invariant forall i :: 0 <= i < |entries| ==> RowIs(c, after + i + 1, entries[i])
    {
      var n := after + |entries| + 1;
      var e := c.log[n];
      if Size(e) >= MAX_PAGE_BYTES {
        return Err(EntryTooLarge);
      }
      if bytes + Size(e) + 1 > MAX_PAGE_BYTES {
        break;
      }
      if e.body.sequence != n {
        return Err(SequenceGap);
      }
      assert RowIs(c, n, e);
      assert (entries + [e])[..|entries|] == entries;
      bytes := bytes + Size(e) + 1;
      entries := entries + [e];
    }
    r := Ok(entries);
  }

  /** One page of the journal, bound to the head it was asked for. Every page short of the
      end of a well-formed journal is non-empty. */
  method JournalPage(c: Database, id: Identity, expected: Head, after: nat, limit: nat, ghost l: Ledger) returns (r: Outcome<Page>)
    ensures r.Ok? ==> PageOk(r.value, expected, after, limit)
    ensures Represents(c, id, l) && expected == HeadOn(c, id, l) && CursorOk(expected, after, limit) ==>
              && r.Ok? && PageOn(id, l, after, limit, r.value.entries)
              && (after < Length(l) ==> r.value.entries != [])
  {
    if !CursorOk(expected, after, limit) {
      return Err(InvalidCursor);
    }
    var head := JournalHead(c, id, l);
    if head != Ok(expected) {
      return Err(StaleCursor);
    }
    forall n: nat | after < n <= expected.length
      ensures n in c.log
    {
      assert n in Above(c, BaseFloor(c));
    }
    if Represents(c, id, l) && expected == HeadOn(c, id, l) {
      RowsFit(c, id, l, after);
    }
    var entries := FillPage(c, after, limit, expected.length);
    if entries.Err? {
      return Err(entries.error);
    }
    var page := Page(expected, after, entries.value);
    if Represents(c, id, l) && expected == HeadOn(c, id, l) {
      FilledOn(c, id, l, after, limit, entries.value);
      PageIsValid(c, id, l, page, expected, after, limit);
    }
    var ok := ValidatePage(page, expected, after, limit);
    if ok.Err? {
      return Err(ok.error);
    }
    r := Ok(page);
  }

  lemma RowsFit(c: Database, id: Identity, l: Ledger, after: nat)
    requires Represents(c, id, l) && Floor(l) <= after
    ensures forall n: nat :: after < n <= Length(l) ==> n in c.log && c.log[n].body.sequence == n && Size(c.log[n]) < MAX_PAGE_BYTES
  {
    forall n: nat | after < n <= Length(l)
      ensures n in c.log && c.log[n].body.sequence == n && Size(c.log[n]) < MAX_PAGE_BYTES
    {
      assert Present(l, n);
      RowFits(c, id, l, n);
    }
  }

  lemma FilledOn(c: Database, id: Identity, l: Ledger, after: nat, limit: nat, es: seq<Entry>)
    requires Represents(c, id, l) && Floor(l) <= after && limit > 0 && Filled(c, after, limit, Length(l), es)
    ensures PageOn(id, l, after, limit, es) && (after < Length(l) ==> es != [])
  {
    forall i | 0 <= i < |es|
      ensures es[i] == EntryAt(l, after + i + 1)
    {
      assert RowIs(c, after + i + 1, es[i]);
    }
    if after < Length(l) {
      assert Present(l, after + 1);
      RowFits(c, id, l, after + 1);
    }
  }

  lemma RowFits(c: Database, id: Identity, l: Ledger, n: nat)
    requires Represents(c, id, l) && n in c.log
    ensures c.log[n] == EntryAt(l, n) && c.log[n].body.sequence == n && ValidEntry(c.log[n], id)
    ensures Size(c.log[n]) + 1 <= MAX_PAGE_BYTES
  {
    assert LinkOk(id, Full(l), n - 1) && Full(l)[n - 1] == c.log[n].body;
  }

  lemma PageIsValid(c: Database, id: Identity, l: Ledger, page: Page, head: Head, after: nat, limit: nat)
    requires Represents(c, id, l) && head == HeadOn(c, id, l) && CursorOk(head, after, limit)
    requires page.head == head && page.after == after && |page.entries| <= limit && after + |page.entries| <= Length(l)
    requires page.entries == [] ==> after == Length(l)
    requires Bytes(page.entries) <= MAX_PAGE_BYTES
    requires forall i :: 0 <= i < |page.entries| ==> RowIs(c, after + i + 1, page.entries[i])
    ensures PageOk(page, head, after, limit)
  {
    forall i | 0 <= i < |page.entries|
      ensures page.entries[i].body.sequence == after + i + 1 && ValidEntry(page.entries[i], head.identity)
    {
      assert RowIs(c, after + i + 1, page.entries[i]);
      RowFits(c, id, l, after + i + 1);
    }
  }
}
