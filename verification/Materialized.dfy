/** Materialized transfer: the data and receipts of a checkpoint, without the journal, sent
    in pages to an empty secondary and installed as its base. */
module Materialized {
  import opened Basics
  import opened Reference
  import opened Ledgers
  import opened Tables

  datatype Item = PlaceRow(id: Text, name: Text) | FeatureRow(id: Text, feature: Feature) | ReceiptRow(receipt: Receipt)

  /** An item and the length of its JSON text. */
  datatype Row = Row(item: Item, size: nat)

  datatype Manifest = Manifest(publication: Option<Proposal>, head: Head, checkpoint: Checkpoint, places: nat, features: nat, receipts: nat)

  datatype Chunk = Chunk(manifest: Manifest, after: nat, rows: seq<Row>)

  datatype Progress = Progress(manifest: Manifest, token: nat, received: nat, bytes: nat, complete: bool)

  function RowsOf(m: Manifest): nat {
    m.places + m.features + m.receipts
  }

  predicate ManifestOk(m: Manifest) {
    && (m.publication.Some? ==>
          && m.publication.value.checkpoint == m.checkpoint && m.publication.value.token == m.head.revision
          && m.publication.value.primaryGeneration == m.head.generation)
    && RowsOf(m) <= MAX_ROWS && m.receipts == m.checkpoint.sequence && m.head.length == m.checkpoint.sequence
    && m.head.identity == m.checkpoint.identity && m.checkpoint.format == 1
    && (m.head.base.Some? ==>
          && m.head.base.value.format == 1 && m.head.base.value.identity == m.checkpoint.identity
          && m.head.base.value.sequence <= m.checkpoint.sequence)
  }

  /** The item that may stand at a position: places first, then features, then receipts in
      sequence. */
  predicate Placed(m: Manifest, n: nat, x: Item) {
    match x
    case PlaceRow(_, _) => n < m.places
    case FeatureRow(_, _) => m.places <= n < m.places + m.features
    case ReceiptRow(r) => n >= m.places + m.features && ReceiptOk(r, n - m.places - m.features + 1)
  }

  function Volume(xs: seq<Row>): nat {
    if xs == [] then 0 else Volume(xs[..|xs| - 1]) + xs[|xs| - 1].size
  }

  predicate ChunkOk(c: Chunk) {
    && ManifestOk(c.manifest) && c.after <= RowsOf(c.manifest)
    && |c.rows| <= MAX_PAGE_ENTRIES && |c.rows| <= RowsOf(c.manifest) - c.after
    && (c.rows == [] ==> c.after == RowsOf(c.manifest))
    && (forall i :: 0 <= i < |c.rows| ==> Placed(c.manifest, c.after + i, c.rows[i].item))
    && Volume(c.rows) + |c.rows| <= MAX_PAGE_BYTES
  }

  // ---------------------------------------------------------------- the source

  /** What a source offers: every position holds an item that belongs there and fits a page. */
  ghost predicate Offered(m: Manifest, xs: seq<Row>) {
    && |xs| == RowsOf(m) && forall i :: 0 <= i < |xs| ==> Placed(m, i, xs[i].item)
  }

  /** The next page: as many rows as the limits allow. It is empty only at the end. */
  method BuildChunk(m: Manifest, xs: seq<Row>, after: nat) returns (r: Outcome<Chunk>)
    requires Offered(m, xs)
    ensures r.Ok? ==> ChunkOk(r.value) && r.value.manifest == m && r.value.after == after
    ensures r.Ok? ==> after + |r.value.rows| <= |xs| && r.value.rows == xs[after..after + |r.value.rows|]
    ensures r.Ok? ==> |r.value.rows| == MAX_PAGE_ENTRIES || after + |r.value.rows| == |xs| ||
                      Volume(r.value.rows) + |r.value.rows| + xs[after + |r.value.rows|].size + 1 > MAX_PAGE_BYTES
    ensures ManifestOk(m) && after <= |xs| && (forall i :: 0 <= i < |xs| ==> xs[i].size < MAX_PAGE_BYTES) ==> r.Ok?
  {
    if !ManifestOk(m) || after > RowsOf(m) {
      return Err(InvalidCursor);
    }
    var rows := FillChunk(xs, after);
    if rows.Err? {
      return Err(rows.error);
    }
    assert forall i :: 0 <= i < |rows.value| ==> rows.value[i] == xs[after + i];
    r := Ok(Chunk(m, after, rows.value));
  }

  /** The rows from a cursor on that one page takes. */
  method FillChunk(xs: seq<Row>, after: nat) returns (r: Outcome<seq<Row>>)
    requires after <= |xs|
    ensures r.Ok? ==> |r.value| <= MAX_PAGE_ENTRIES && after + |r.value| <= |xs| && r.value == xs[after..after + |r.value|]
    ensures r.Ok? ==> Volume(r.value) + |r.value| <= MAX_PAGE_BYTES && (r.value == [] ==> after == |xs|)
    ensures r.Ok? ==> |r.value| == MAX_PAGE_ENTRIES || after + |r.value| == |xs| ||
                      Volume(r.value) + |r.value| + xs[after + |r.value|].size + 1 > MAX_PAGE_BYTES
    ensures (forall i :: 0 <= i < |xs| ==> xs[i].size < MAX_PAGE_BYTES) ==> r.Ok?
  {
    var rows, bytes := [], 0;
    while |rows| < MAX_PAGE_ENTRIES && after + |rows| < |xs|
      invariant |rows| <= MAX_PAGE_ENTRIES && after + |rows| <= |xs| && rows == xs[after..after + |rows|]
      invariant bytes == Volume(rows) + |rows| && bytes <= MAX_PAGE_BYTES
    {
      var x := xs[after + |rows|];
      if x.size + 1 > MAX_PAGE_BYTES {
        return Err(EntryTooLarge);
      }
      if bytes + x.size + 1 > MAX_PAGE_BYTES {
        break;
      }
      assert (rows + [x])[..|rows|] == rows;
      bytes, rows := bytes + x.size + 1, rows + [x];
    }
    r := Ok(rows);
  }

  // ---------------------------------------------------------------- installing rows

  /** Data and receipts as rows are inserted one by one; a key that is taken, or a feature
      whose place is missing, fails. */
  datatype Data = Data(view: View, receipts: map<nat, Receipt>)

  predicate OperationTaken(d: Data, op: Text) {
    exists n :: n in d.receipts && d.receipts[n].result.operationId == op
  }

  function InsertItem(d: Data, x: Item): Option<Data> {
    match x
    case PlaceRow(id, name) =>
      if id in d.view.places then None else Some(d.(view := d.view.(places := d.view.places[id := name])))
    case FeatureRow(id, f) =>
      if id in d.view.features || f.placeId !in d.view.places then None
      else Some(d.(view := d.view.(features := d.view.features[id := f])))
    case ReceiptRow(r) =>
      if r.result.sequence in d.receipts || OperationTaken(d, r.result.operationId) then None
      else Some(d.(receipts := d.receipts[r.result.sequence := r]))
  }

  function InsertItems(xs: seq<Row>): Option<Data> {
    if xs == [] then Some(Data(EMPTY_VIEW, map[]))
    else
      match InsertItems(xs[..|xs| - 1])
      case None => None
      case Some(d) => InsertItem(d, xs[|xs| - 1].item)
  }

  /** Two rows that cannot both be stored. */
  predicate Clash(x: Item, y: Item) {
    || (x.PlaceRow? && y.PlaceRow? && x.id == y.id)
    || (x.FeatureRow? && y.FeatureRow? && x.id == y.id)
    || (x.ReceiptRow? && y.ReceiptRow? && (x.receipt.result.sequence == y.receipt.result.sequence || x.receipt.result.operationId == y.receipt.result.operationId))
  }

  /** A row that cannot be stored after the ones before it. */
  ghost predicate Unfit(xs: seq<Row>, k: nat)
    requires k < |xs|
  {
    || (exists i :: 0 <= i < k && Clash(xs[i].item, xs[k].item))
    || (xs[k].item.FeatureRow? && forall i :: 0 <= i < k ==> !(xs[i].item.PlaceRow? && xs[i].item.id == xs[k].item.feature.placeId))
  }

  /** The data is what the rows say. */
  ghost predicate Says(xs: seq<Row>, d: Data) {
    && (forall id: Text, name: Text :: (id in d.view.places && d.view.places[id] == name) <==> exists i :: 0 <= i < |xs| && xs[i].item == PlaceRow(id, name))
    && (forall id: Text, f: Feature :: (id in d.view.features && d.view.features[id] == f) <==> exists i :: 0 <= i < |xs| && xs[i].item == FeatureRow(id, f))
    && (forall n: nat, r: Receipt :: (n in d.receipts && d.receipts[n] == r) <==> n == r.result.sequence && exists i :: 0 <= i < |xs| && xs[i].item == ReceiptRow(r))
  }

  lemma SaysMore(xs: seq<Row>, d: Data, x: Row)
    requires Says(xs, d)
    ensures InsertItem(d, x.item).None? <==> Unfit(xs + [x], |xs|)
    ensures InsertItem(d, x.item).Some? ==> Says(xs + [x], InsertItem(d, x.item).value)
  {
    var all := xs + [x];
    assert forall i :: 0 <= i < |xs| ==> all[i] == xs[i];
    assert all[|xs|] == x;
    match x.item
    case PlaceRow(id, name) => SaysPlace(xs, d, id);
    case FeatureRow(id, f) => SaysFeature(xs, d, id); SaysPlace(xs, d, f.placeId);
    case ReceiptRow(r) => SaysReceipt(xs, d, r);
  }

  lemma SaysPlace(xs: seq<Row>, d: Data, id: Text)
    requires Says(xs, d)
    ensures id in d.view.places <==> exists i :: 0 <= i < |xs| && xs[i].item.PlaceRow? && xs[i].item.id == id
  {
    if id in d.view.places {
      var name: Text := d.view.places[id];
      var i :| 0 <= i < |xs| && xs[i].item == PlaceRow(id, name);
    }
    if i :| 0 <= i < |xs| && xs[i].item.PlaceRow? && xs[i].item.id == id {
      assert xs[i].item == PlaceRow(id, xs[i].item.name);
    }
  }

  lemma SaysFeature(xs: seq<Row>, d: Data, id: Text)
    requires Says(xs, d)
    ensures id in d.view.features <==> exists i :: 0 <= i < |xs| && xs[i].item.FeatureRow? && xs[i].item.id == id
  {
    if id in d.view.features {
      var f: Feature := d.view.features[id];
      var i :| 0 <= i < |xs| && xs[i].item == FeatureRow(id, f);
    }
    if i :| 0 <= i < |xs| && xs[i].item.FeatureRow? && xs[i].item.id == id {
      assert xs[i].item == FeatureRow(id, xs[i].item.feature);
    }
  }

  lemma SaysReceipt(xs: seq<Row>, d: Data, r: Receipt)
    requires Says(xs, d)
    ensures (r.result.sequence in d.receipts || OperationTaken(d, r.result.operationId)) <==> exists i :: 0 <= i < |xs| && Clash(xs[i].item, ReceiptRow(r))
  {
    if n :| n in d.receipts && (n == r.result.sequence || d.receipts[n].result.operationId == r.result.operationId) {
      var q: Receipt := d.receipts[n];
      var i :| 0 <= i < |xs| && xs[i].item == ReceiptRow(q);
      assert Clash(xs[i].item, ReceiptRow(r));
    }
    if i :| 0 <= i < |xs| && Clash(xs[i].item, ReceiptRow(r)) {
      var q := xs[i].item.receipt;
      assert xs[i].item == ReceiptRow(q) && q.result.sequence in d.receipts && d.receipts[q.result.sequence] == q;
    }
  }

  /** Rows can be installed exactly if none of them is unfit where it stands, and then the data
      is what they say. */
  lemma {:induction false} InsertItemsMean(xs: seq<Row>)
    ensures InsertItems(xs).None? <==> exists k :: 0 <= k < |xs| && Unfit(xs, k)
    ensures InsertItems(xs).Some? ==> Says(xs, InsertItems(xs).value)
  {
    if xs != [] {
      var n := |xs| - 1;
      var init, x := xs[..n], xs[n];
      assert xs == init + [x];
      InsertItemsMean(init);
      assert forall k :: 0 <= k < n ==> (Unfit(init, k) <==> Unfit(xs, k)) by {
        assert forall i :: 0 <= i < n ==> init[i] == xs[i];
      }
      hide Unfit, Says, InsertItem;
      if InsertItems(init).Some? {
        SaysMore(init, InsertItems(init).value, x);
      }
    }
  }

  // ---------------------------------------------------------------- the receiver

  ghost predicate StagedAre(staged: map<nat, Row>, xs: seq<Row>) {
    (forall i: nat :: i in staged <==> i < |xs|) && forall i: nat :: i < |xs| ==> staged[i] == xs[i]
  }

  predicate Blank(db: Database) {
    db.log == map[] && db.view == EMPTY_VIEW && db.receipts == map[] && db.base.None?
  }

  /** Whether a chunk is taken: next in line, or an exact repeat. */
  ghost predicate Takes(progress: Option<Progress>, generation: nat, held: seq<Row>, token: nat, c: Chunk) {
    && ChunkOk(c) && c.rows != [] && progress.Some? && progress.value.token == token && generation == token
    && !progress.value.complete && progress.value.manifest == c.manifest
    && (if c.after == |held| then Volume(held) + Volume(c.rows) <= MAX_BYTES
        else c.after + |c.rows| <= |held| && c.rows == held[c.after..c.after + |c.rows|])
  }

  lemma {:induction false} VolumeConcat(a: seq<Row>, b: seq<Row>)
    ensures Volume(a + b) == Volume(a) + Volume(b)
  {
    if b == [] {
      assert a + b == a;
    } else {
      var n := |b| - 1;
      assert (a + b)[..|a| + n] == a + b[..n];
      VolumeConcat(a, b[..n]);
    }
  }

  /** The live data and receipts are those of a checkpoint. */
  ghost predicate HoldsData(db: Database, c: Checkpoint) {
    db.view == c.view && |db.receipts| == |c.receipts| && Receipted(db, c.receipts)
  }

  /** The history a checkpoint was taken of. */
  ghost predicate Of(c: Checkpoint, a: seq<Body>) {
    ChainOk(c.identity, a) && |a| <= MAX_SEQUENCE && c == CheckpointAt(c.identity, a, |a|)
  }

  /** A node that holds a history without any of its journal rows. */
  function Installed(a: seq<Body>, generation: nat): Ledger {
    Ledger(a, None, Range(0, |a|), Some(|a|), None, None, generation, false)
  }

  function ReceiptTable(a: seq<Body>): (t: map<nat, Receipt>)
    ensures ReceiptsHold(t, a)
  {
    if a == [] then map[] else ReceiptTable(a[..|a| - 1])[|a| := ReceiptOf(a[|a| - 1])]
  }

  function InstalledTables(c: Checkpoint, d: Data, generation: nat, revision: nat): Database {
    Database(map[], d.view, d.receipts, Some(c), None, None, generation, revision, false)
  }

  lemma InstalledHolds(c: Checkpoint, a: seq<Body>, d: Data, generation: nat, revision: nat)
    requires Of(c, a) && d == Data(ViewAt(a, |a|), ReceiptTable(a))
    ensures Represents(InstalledTables(c, d, generation, revision), c.identity, Installed(a, generation))
  {
    var l := Installed(a, generation);
    assert Full(l) == a;
    assert forall i: nat :: !Present(l, i);
  }

  /** Whether the tables are at a checkpoint. */
  method IsAt(db: Database, c: Checkpoint, ghost a: seq<Body>) returns (ok: bool)
    ensures ok ==> HoldsData(db, c)
    ensures Of(c, a) && Represents(db, c.identity, Installed(a, db.generation)) ==> ok
  {
    var current := CurrentCheckpoint(db, c.identity, true, Installed(a, db.generation));
    ok := current == Ok(c);
  }

  /** Everything a finish needs of the staged rows. */
  ghost predicate Complete(m: Manifest, held: seq<Row>) {
    && |held| == RowsOf(m) && (forall i :: 0 <= i < |held| ==> Placed(m, i, held[i].item))
    && (forall i :: 0 <= i < |held| ==> held[i].size < MAX_PAGE_BYTES) && InsertItems(held).Some?
  }

  class Target {
    const role: Role
    const identity: Identity
    var db: Database
    var progress: Option<Progress>
    var staged: map<nat, Row>
    ghost var held: seq<Row>

    /** At every moment the staged rows are a gap-free prefix, counted exactly. */
    ghost predicate Valid()
      reads this
    {
      if progress.Some? && !progress.value.complete then
        && StagedAre(staged, held) && progress.value.received == |held| && progress.value.bytes == Volume(held) <= MAX_BYTES
        && ManifestOk(progress.value.manifest) && progress.value.manifest.checkpoint.identity == identity && |held| <= RowsOf(progress.value.manifest)
      else staged == map[]
    }

    constructor (role: Role, identity: Identity, db: Database)
      ensures Valid() && this.role == role && this.identity == identity && this.db == db && progress == None
    {
      this.role := role;
      this.identity := identity;
      this.db := db;
      progress := None;
      staged := map[];
      held := [];
    }

    /** A well-formed manifest for this secondary. */
    predicate Meant(m: Manifest) {
      role == Secondary && m.checkpoint.identity == identity && ManifestOk(m)
    }

    /** The transfer of this manifest is the one underway or finished here. */
    predicate Resumes(m: Manifest)
      reads this
    {
      progress.Some? && progress.value.manifest == m && progress.value.token == db.generation
    }

    /** Open a transfer into an empty secondary, or resume the same one. */
    method Begin(m: Manifest, fresh': nat, ghost a: seq<Body>) returns (r: Outcome<Progress>)
      requires Valid()
      modifies this
      ensures Valid()
      ensures r.Ok? ==> Meant(m)
      ensures Meant(m) && old(progress).None? ==> (r.Ok? <==> old(Blank(db)) && !old(db.transferring) && old(db.published).None?)
      ensures old(progress).Some? && !old(progress).value.complete ==> (r.Ok? <==> Meant(m) && old(Resumes(m)))
      ensures old(progress).Some? && old(progress).value.complete && r.Ok? ==> old(Resumes(m)) && HoldsData(db, m.checkpoint)
      ensures (Meant(m) && old(Resumes(m)) && old(progress).value.complete && Of(m.checkpoint, a) && old(Represents(db, identity, Installed(a, db.generation))))
                ==> r.Ok?
      ensures r.Ok? ==> progress == Some(r.value) && r.value.manifest == m && ManifestOk(m)
      ensures r.Ok? && old(progress).None? ==> Blank(db) && held == [] && r.value == Progress(m, fresh', 0, 0, false)
      ensures r.Ok? && old(progress).None? ==> db == old(db).(readiness := None, generation := fresh', transferring := true)
      ensures r.Err? || old(progress).Some? ==> db == old(db) && progress == old(progress) && staged == old(staged) && held == old(held)
    {
      if role != Secondary || m.checkpoint.identity != identity || !ManifestOk(m) {
        return Err(WrongRole);
      }
      if progress.Some? {
        var p := progress.value;
        if p.manifest != m || db.generation != p.token {
          return Err(TransferInProgress);
        }
        if p.complete {
          var same := IsAt(db, m.checkpoint, a);
          if !same {
            return Err(CheckpointMismatch);
          }
        }
        return Ok(p);
      }
      if db.transferring || db.published.Some? || !Blank(db) {
        return Err(SlotOccupied);
      }
      db := db.(readiness := None, generation := fresh', transferring := true);
      progress := Some(Progress(m, fresh', 0, 0, false));
      held := [];
      r := Ok(progress.value);
    }

    /** Take a chunk. A refused one leaves everything as it was. */
    method Receive(token: nat, c: Chunk) returns (r: Outcome<Progress>)
      requires Valid()
      modifies this
      ensures Valid() && db == old(db)
      ensures role == Secondary ==> (r.Ok? <==> Takes(old(progress), db.generation, old(held), token, c))
      ensures r.Ok? ==> held == if c.after == old(|held|) then old(held) + c.rows else old(held)
      ensures r.Ok? ==> old(progress).Some? && progress == Some(r.value) && r.value == old(progress).value.(received := |held|, bytes := Volume(held))
      ensures r.Err? ==> progress == old(progress) && staged == old(staged) && held == old(held)
    {
      if role != Secondary || !ChunkOk(c) || c.rows == [] {
        return Err(WrongRole);
      }
      if progress.None? || progress.value.token != token || db.generation != token {
        return Err(StaleGeneration);
      }
      var p := progress.value;
      if p.complete || p.manifest != c.manifest {
        return Err(CheckpointMismatch);
      }
      var end := c.after + |c.rows|;
      if c.after != p.received && end > p.received {
        return Err(SequenceGap);
      }
      if end <= p.received {
        var same := Repeats(c);
        return if same then Ok(p) else Err(DataMismatch);
      }
      var next, bytes := Staged(staged, p.bytes, c, held);
      if bytes > MAX_BYTES {
        return Err(QuotaExceeded);
      }
      VolumeConcat(held, c.rows);
      staged, held := next, held + c.rows;
      progress := Some(p.(received := end, bytes := bytes));
      r := Ok(progress.value);
    }

    /** Install the staged rows as the base. It succeeds only if data and receipts are then
        those of the manifest's checkpoint; a finish that fails changes nothing. If the rows
        are those of a history, it succeeds and the node holds that history. */
    method Finish(token: nat, ghost a: seq<Body>) returns (r: Outcome<Progress>)
      requires Valid()
      modifies this
      ensures Valid()
      ensures r.Ok? ==> old(progress).Some? && progress == Some(r.value) && r.value == old(progress).value.(complete := true)
      ensures r.Ok? ==> HoldsData(db, r.value.manifest.checkpoint)
      ensures r.Ok? && !old(progress).value.complete ==>
                && InsertItems(old(held)).Some? && db == InstalledTables(r.value.manifest.checkpoint, InsertItems(old(held)).value, old(db).generation, old(db).revision).(published := old(db).published)
      ensures r.Err? || old(progress).value.complete ==> db == old(db) && progress == old(progress) && staged == old(staged)
      ensures role == Secondary && old(Underway(token)) && old(Blank(db)) && old(db).published.None? && old(Complete(progress.value.manifest, held)) &&
              Of(old(progress).value.manifest.checkpoint, a) && InsertItems(old(held)) == Some(Data(ViewAt(a, |a|), ReceiptTable(a)))
              ==> r.Ok? && Represents(db, identity, Installed(a, db.generation))
    {
      if role != Secondary {
        return Err(WrongRole);
      }
      if progress.None? || progress.value.token != token || db.generation != token {
        return Err(StaleGeneration);
      }
      var p := progress.value;
      var c := p.manifest.checkpoint;
      if p.complete {
        var same := IsAt(db, c, a);
        return if same then Ok(p) else Err(CheckpointMismatch);
      }
      if p.received != RowsOf(p.manifest) || !Blank(db) {
        return Err(PrematureEnd);
      }
      var data := Rebuild(p.manifest, staged, p.bytes, held);
      if data.Err? {
        return Err(data.error);
      }
      var tx := InstalledTables(c, data.value, db.generation, db.revision).(published := db.published);
      if Of(c, a) && data.value == Data(ViewAt(a, |a|), ReceiptTable(a)) {
        InstalledHolds(c, a, data.value, db.generation, db.revision);
      }
      var ok := IsAt(tx, c, a);
      if !ok {
        return Err(CheckpointMismatch);
      }
      db, staged, progress := tx, map[], Some(p.(complete := true));
      r := Ok(progress.value);
    }

    ghost predicate Underway(token: nat)
      reads this
    {
      progress.Some? && progress.value.token == token && db.generation == token && !progress.value.complete
    }

    /** Give a transfer up. Live data stays as it is. */
    method Cancel(token: nat) returns (r: Outcome<()>)
      requires Valid()
      modifies this
      ensures Valid() && (r.Ok? <==> role == Secondary && old(progress).Some? && old(progress).value.token == token)
      ensures r.Ok? ==> progress == None && staged == map[] && db == old(db).(transferring := false)
      ensures r.Err? ==> db == old(db) && progress == old(progress) && staged == old(staged)
    {
      if role != Secondary || progress.None? || progress.value.token != token {
        return Err(StaleGeneration);
      }
      staged, progress, db := map[], None, db.(transferring := false);
      r := Ok(());
    }

    method Repeats(c: Chunk) returns (same: bool)
      requires Valid() && progress.Some? && !progress.value.complete && c.after + |c.rows| <= |held|
      ensures same <==> c.rows == held[c.after..c.after + |c.rows|]
    {
      var i := 0;
      while i < |c.rows|
        invariant i <= |c.rows| && forall k :: 0 <= k < i ==> c.rows[k] == held[c.after + k]
      {
        if staged[c.after + i] != c.rows[i] {
          return false;
        }
        i := i + 1;
      }
      same := true;
    }
  }

  /** Stage rows after the ones held, counting their bytes. */
  method Staged(from: map<nat, Row>, before: nat, c: Chunk, ghost held: seq<Row>) returns (staged: map<nat, Row>, bytes: nat)
    requires StagedAre(from, held) && c.after == |held|
    ensures StagedAre(staged, held + c.rows) && bytes == before + Volume(c.rows)
  {
    staged, bytes := from, before;
    var i := 0;
    while i < |c.rows|
      invariant i <= |c.rows| && bytes == before + Volume(c.rows[..i]) && StagedAre(staged, held + c.rows[..i])
    {
      assert c.rows[..i + 1][..i] == c.rows[..i];
      assert held + c.rows[..i + 1] == held + c.rows[..i] + [c.rows[i]];
      bytes := bytes + c.rows[i].size;
      staged := staged[c.after + i := c.rows[i]];
      i := i + 1;
    }
    assert c.rows[..i] == c.rows;
  }

  /** Insert the staged rows in order of position, checking each again. */
  method Rebuild(m: Manifest, staged: map<nat, Row>, bytes: nat, ghost held: seq<Row>) returns (r: Outcome<Data>)
    requires StagedAre(staged, held) && |held| == RowsOf(m) && bytes == Volume(held)
    ensures r.Ok? ==> InsertItems(held) == Some(r.value)
    ensures Complete(m, held) && bytes <= MAX_BYTES ==> r.Ok?
  {
    var data, count, sum := Data(EMPTY_VIEW, map[]), 0, 0;
    while count in staged
      invariant count <= |held| && InsertItems(held[..count]) == Some(data) && sum == Volume(held[..count])
      decreases |held| - count
    {
      var x := staged[count];
      if !Placed(m, count, x.item) || x.size + 1 > MAX_PAGE_BYTES {
        return Err(DataMismatch);
      }
      assert held[..count + 1][..count] == held[..count];
      var next := InsertItem(data, x.item);
      if next.None? {
        InsertFails(held, count + 1);
        return Err(KeyReused);
      }
      data, count, sum := next.value, count + 1, sum + x.size;
    }
    assert held[..count] == held;
    if sum != bytes || sum > MAX_BYTES {
      return Err(QuotaExceeded);
    }
    r := Ok(data);
  }

  lemma {:induction false} InsertFails(xs: seq<Row>, k: nat)
    requires k <= |xs| && InsertItems(xs[..k]).None?
    ensures InsertItems(xs).None?
  {
    if k < |xs| {
      assert xs[..|xs| - 1][..k] == xs[..k];
      InsertFails(xs[..|xs| - 1], k);
    } else {
      assert xs[..k] == xs;
    }
  }

  // ---------------------------------------------------------------- the round trip

  /** The places and the features that rows list. */
  function PlaceMap(xs: seq<Row>): map<Text, Text> {
    if xs == [] then map[]
    else
      var t, x := PlaceMap(xs[..|xs| - 1]), xs[|xs| - 1].item;
      if x.PlaceRow? then t[x.id := x.name] else t
  }

  function FeatureMap(xs: seq<Row>): map<Text, Feature> {
    if xs == [] then map[]
    else
      var t, x := FeatureMap(xs[..|xs| - 1]), xs[|xs| - 1].item;
      if x.FeatureRow? then t[x.id := x.feature] else t
  }

  /** No key is listed twice. */
  predicate Distinct(xs: seq<Row>) {
    forall i, j :: 0 <= i < j < |xs| ==>
      && (xs[i].item.PlaceRow? && xs[j].item.PlaceRow? ==> xs[i].item.id != xs[j].item.id)
      && (xs[i].item.FeatureRow? && xs[j].item.FeatureRow? ==> xs[i].item.id != xs[j].item.id)
  }

  /** Rows that list a view and the receipts of a history: every place and every feature
      once, in any order within its kind, then the receipts in sequence. */
  ghost predicate Lists(m: Manifest, xs: seq<Row>, v: View, a: seq<Body>) {
    && Offered(m, xs) && Distinct(xs) && m.receipts == |a|
    && PlaceMap(xs) == v.places && FeatureMap(xs) == v.features
    && (forall i :: 0 <= i < |xs| && xs[i].item.FeatureRow? ==> xs[i].item.feature.placeId in v.places)
    && (forall i :: 0 <= i < |a| ==> xs[m.places + m.features + i].item == ReceiptRow(ReceiptOf(a[i])))
  }

  lemma {:induction false} ListedPlace(xs: seq<Row>, id: Text) returns (i: nat)
    requires id in PlaceMap(xs)
    ensures i < |xs| && xs[i].item.PlaceRow? && xs[i].item.id == id
  {
    var n := |xs| - 1;
    if xs[n].item.PlaceRow? && xs[n].item.id == id {
      i := n;
    } else {
      i := ListedPlace(xs[..n], id);
    }
  }

  lemma {:induction false} ListedFeature(xs: seq<Row>, id: Text) returns (i: nat)
    requires id in FeatureMap(xs)
    ensures i < |xs| && xs[i].item.FeatureRow? && xs[i].item.id == id
  {
    var n := |xs| - 1;
    if xs[n].item.FeatureRow? && xs[n].item.id == id {
      i := n;
    } else {
      i := ListedFeature(xs[..n], id);
    }
  }

  /** Past the places no row adds one. */
  lemma {:induction false} PlacesAreDone(m: Manifest, xs: seq<Row>, k: nat)
    requires Offered(m, xs) && m.places <= k <= |xs|
    ensures PlaceMap(xs[..k]) == PlaceMap(xs)
    decreases |xs| - k
  {
    if k < |xs| {
      PlacesAreDone(m, xs, k + 1);
      assert Placed(m, k, xs[k].item);
      assert xs[..k + 1][..k] == xs[..k];
    } else {
      assert xs[..k] == xs;
    }
  }

  /** The data that the first k rows amount to. */
  function DataOf(m: Manifest, xs: seq<Row>, a: seq<Body>, k: nat): Data
    requires k <= |xs| && |xs| == RowsOf(m) && m.receipts == |a|
  {
    Data(View(PlaceMap(xs[..k]), FeatureMap(xs[..k])), ReceiptTable(a[..if k <= m.places + m.features then 0 else k - m.places - m.features]))
  }

  lemma NewKey(m: Manifest, xs: seq<Row>, v: View, a: seq<Body>, k: nat)
    requires Lists(m, xs, v, a) && k < |xs|
    ensures xs[k].item.PlaceRow? ==> xs[k].item.id !in PlaceMap(xs[..k])
    ensures xs[k].item.FeatureRow? ==> xs[k].item.id !in FeatureMap(xs[..k]) && xs[k].item.feature.placeId in PlaceMap(xs[..k])
  {
    var x := xs[k].item;
    assert Placed(m, k, x);
    if x.PlaceRow? && x.id in PlaceMap(xs[..k]) {
      var i := ListedPlace(xs[..k], x.id);
      assert false;
    }
    if x.FeatureRow? {
      PlacesAreDone(m, xs, k);
      if x.id in FeatureMap(xs[..k]) {
        var i := ListedFeature(xs[..k], x.id);
        assert false;
      }
    }
  }

  lemma NewReceipt(m: Manifest, xs: seq<Row>, v: View, a: seq<Body>, k: nat)
    requires Lists(m, xs, v, a) && DistinctOps(a) && k < |xs| && xs[k].item.ReceiptRow?
    ensures m.places + m.features <= k && xs[k].item == ReceiptRow(ReceiptOf(a[k - m.places - m.features]))
    ensures !OperationTaken(DataOf(m, xs, a, k), xs[k].item.receipt.result.operationId)
    ensures xs[k].item.receipt.result.sequence == k - m.places - m.features + 1
  {
    hide PlaceMap, FeatureMap, Distinct;
    assert Placed(m, k, xs[k].item);
    var i := k - m.places - m.features;
    assert xs[m.places + m.features + i].item == ReceiptRow(ReceiptOf(a[i]));
    var b := a[..i];
    assert forall n :: n in ReceiptTable(b) ==> ReceiptTable(b)[n] == ReceiptOf(a[n - 1]);
  }

  lemma InsertReceipt(m: Manifest, xs: seq<Row>, v: View, a: seq<Body>, k: nat)
    requires Lists(m, xs, v, a) && DistinctOps(a) && k < |xs| && xs[k].item.ReceiptRow?
    ensures InsertItem(DataOf(m, xs, a, k), xs[k].item) == Some(DataOf(m, xs, a, k + 1))
  {
    NewReceipt(m, xs, v, a, k);
    var i := k - m.places - m.features;
    assert a[..i + 1][..i] == a[..i];
    hide Lists, OperationTaken;
    assert xs[..k + 1][..k] == xs[..k];
  }

  lemma InsertStep(m: Manifest, xs: seq<Row>, v: View, a: seq<Body>, k: nat)
    requires Lists(m, xs, v, a) && DistinctOps(a) && k < |xs|
    ensures InsertItem(DataOf(m, xs, a, k), xs[k].item) == Some(DataOf(m, xs, a, k + 1))
  {
    hide Distinct, DistinctOps, OperationTaken, ReceiptTable;
    if xs[k].item.ReceiptRow? {
      InsertReceipt(m, xs, v, a, k);
    } else {
      NewKey(m, xs, v, a, k);
      assert Placed(m, k, xs[k].item);
      assert xs[..k + 1][..k] == xs[..k];
    }
  }

  /** Installing the rows that list a view and a history's receipts rebuilds both exactly. */
  lemma {:induction false} ListedRowsRebuild(m: Manifest, xs: seq<Row>, v: View, a: seq<Body>, k: nat)
    requires Lists(m, xs, v, a) && DistinctOps(a) && k <= |xs|
    ensures |xs| == RowsOf(m) && InsertItems(xs[..k]) == Some(DataOf(m, xs, a, k))
  {
    if k > 0 {
      ListedRowsRebuild(m, xs, v, a, k - 1);
      assert xs[..k][..k - 1] == xs[..k - 1];
      InsertStep(m, xs, v, a, k - 1);
    }
  }

  /** So a complete transfer of a history's checkpoint finishes with that history installed. */
  lemma TransferRebuilds(m: Manifest, xs: seq<Row>, a: seq<Body>)
    requires Of(m.checkpoint, a) && Lists(m, xs, ViewAt(a, |a|), a)
    requires forall i :: 0 <= i < |xs| ==> xs[i].size < MAX_PAGE_BYTES
    ensures Complete(m, xs) && InsertItems(xs) == Some(Data(ViewAt(a, |a|), ReceiptTable(a)))
  {
    var v := ViewAt(a, |a|);
    ListedRowsRebuild(m, xs, v, a, |xs|);
    assert xs[..|xs|] == xs && a[..|a|] == a;
    assert v == View(v.places, v.features);
  }

  // ---------------------------------------------------------------- a whole transfer

  /** Nothing is on the target yet, or an earlier attempt at the same transfer left a prefix
      of the rows staged. */
  ghost predicate Startable(t: Target, m: Manifest, xs: seq<Row>)
    reads t
  {
    && t.Meant(m) && Blank(t.db) && t.db.published.None?
    && (if t.progress.None? then !t.db.transferring else t.Resumes(m) && !t.progress.value.complete && t.held <= xs)
  }

  /** Rows that list the checkpoint of a history and fit the limits. */
  ghost predicate Carries(m: Manifest, xs: seq<Row>, a: seq<Body>) {
    && Of(m.checkpoint, a) && Lists(m, xs, ViewAt(a, |a|), a) && Volume(xs) <= MAX_BYTES
    && forall i :: 0 <= i < |xs| ==> xs[i].size < MAX_PAGE_BYTES
  }

  lemma {:induction false} VolumePrefix(a: seq<Row>, k: nat)
    requires k <= |a|
    ensures Volume(a[..k]) <= Volume(a)
  {
    assert a == a[..k] + a[k..];
    VolumeConcat(a[..k], a[k..]);
  }

  /** Send the rows that are still missing. */
  method Send(t: Target, m: Manifest, xs: seq<Row>, token: nat, ghost sure: bool) returns (r: Outcome<()>)
    requires t.Valid() && Offered(m, xs) && ManifestOk(m) && t.Underway(token) && t.progress.value.manifest == m
    requires sure ==> t.role == Secondary && t.held <= xs && Volume(xs) <= MAX_BYTES && forall i :: 0 <= i < |xs| ==> xs[i].size < MAX_PAGE_BYTES
    modifies t
    ensures t.Valid() && t.db == old(t.db)
    ensures r.Ok? ==> t.Underway(token) && t.progress.value.manifest == m && |t.held| == |xs| && old(t.held) <= t.held
    ensures sure ==> r.Ok? && t.held == xs
  {
    hide ManifestOk, Placed, Volume;
    var received := t.progress.value.received;
    assert sure ==> t.held == xs[..received];
    while received < RowsOf(m)
      invariant t.Valid() && t.db == old(t.db) && t.Underway(token) && t.progress.value.manifest == m
      invariant received == t.progress.value.received <= RowsOf(m) && old(t.held) <= t.held
      invariant sure ==> t.held == xs[..received]
      decreases RowsOf(m) - received
    {
      var chunk := BuildChunk(m, xs, received);
      if chunk.Err? {
        return Err(chunk.error);
      }
      assert chunk.value.rows != [];
      hide ChunkOk;
      if sure {
        NextFits(xs, received, chunk.value.rows);
      }
      var p := t.Receive(token, chunk.value);
      if p.Err? {
        return Err(p.error);
      }
      received := p.value.received;
    }
    assert xs[..|xs|] == xs;
    r := Ok(());
  }

  lemma NextFits(xs: seq<Row>, k: nat, rows: seq<Row>)
    requires k + |rows| <= |xs| && rows == xs[k..k + |rows|] && Volume(xs) <= MAX_BYTES
    ensures Volume(xs[..k]) + Volume(rows) <= MAX_BYTES && xs[..k] + rows == xs[..k + |rows|]
  {
    hide Volume;
    assert xs[..k + |rows|] == xs[..k] + rows;
    VolumeConcat(xs[..k], rows);
    VolumePrefix(xs, k + |rows|);
  }

  /** Install a checkpoint on a secondary, from the start or from where an earlier attempt
      stopped. What is installed is what was announced; and the rows of a history's checkpoint
      always get there, leaving a node that holds that history. */
  method Install(t: Target, m: Manifest, xs: seq<Row>, fresh': nat, ghost a: seq<Body>) returns (r: Outcome<()>)
    requires t.Valid() && Offered(m, xs)
    modifies t
    ensures t.Valid()
    ensures r.Ok? ==> HoldsData(t.db, m.checkpoint)
    ensures old(Startable(t, m, xs)) && Carries(m, xs, a) ==> r.Ok? && Represents(t.db, t.identity, Installed(a, t.db.generation))
  {
    hide Represents, HoldsData, ManifestOk, Placed, Lists, Of, InsertItems;
    ghost var sure := Startable(t, m, xs) && Carries(m, xs, a);
    if sure {
      TransferRebuilds(m, xs, a);
    }
    var p := t.Begin(m, fresh', a);
    if p.Err? {
      return Err(p.error);
    }
    if !p.value.complete {
      r := Send(t, m, xs, p.value.token, sure);
      if r.Err? {
        return;
      }
    }
    var done := t.Finish(p.value.token, a);
    r := if done.Err? then Err(done.error) else Ok(());
  }
}
