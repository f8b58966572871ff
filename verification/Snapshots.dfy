/** SQL snapshots: the rows of a database cut into pages, received with retries, and put
    back so that a scan finds the same rows. Digests are ideal: a content digest is the row
    sequence it was taken of. */
module Snapshots {
  import opened Basics

  const MAX_ROWS: nat := 100_000
  const MAX_BYTES: nat := 256 * 1024 * 1024
  const MAX_ROW_BYTES: nat := 256 * 1024
  const MAX_PAGE_BYTES: nat := 1024 * 1024
  const MAX_PAGE_ROWS: nat := 256
  const MAX_COLUMNS: nat := 256
  const RESERVED: nat := 512

  /** Length of a row's JSON text, which is never empty. */
  type Size = n: nat | n > 0 witness 1

  /** A row of a numbered table, its primary key in sort order, the row it refers to, its
      values and the length of its JSON text. */
  datatype Row = Row(table: nat, key: nat, parent: Option<(nat, nat)>, values: seq<nat>, size: Size)

  datatype Manifest = Manifest(binding: nat, state: seq<Row>, rows: nat, bytes: nat, content: seq<Row>)

  datatype Page = Page(manifest: Manifest, offset: nat, rows: seq<Row>)

  datatype Fault =
    | InvalidLimit | RowTooLarge | InvalidPage | InvalidManifest | BindingMismatch | SlotOccupied | NotEmpty | NoTransfer
    | OutOfOrder | PartialOverlap | Conflict | AlreadyComplete | UnknownTable | WidthMismatch | BytesExceeded | Incomplete
    | DuplicateKey | ForeignKey | ContentMismatch | Quota | Receiving

  type Answer<T> = Result<T, Fault>

  // ---------------------------------------------------------------- rows and pages

  predicate RowOk(x: Row) {
    0 < |x.values| <= MAX_COLUMNS && x.size <= MAX_ROW_BYTES
  }

  predicate RowsOk(xs: seq<Row>) {
    forall i :: 0 <= i < |xs| ==> RowOk(xs[i])
  }

  function Total(xs: seq<Row>): (n: nat)
    ensures n >= |xs| && (n == 0 <==> xs == [])
  {
    if xs == [] then 0 else Total(xs[..|xs| - 1]) + xs[|xs| - 1].size
  }

  function Decimals(n: nat): nat {
    if n < 10 then 1 else 1 + Decimals(n / 10)
  }

  /** The length of a page's JSON text: fixed names, a 64-letter digest, the offset's digits
      and the rows with commas between. */
  function Wire(p: Page): nat {
    117 + Decimals(p.offset) + Total(p.rows) + if p.rows == [] then 0 else |p.rows| - 1
  }

  predicate PageOk(p: Page) {
    && 0 < |p.rows| <= MAX_PAGE_ROWS && p.offset <= MAX_ROWS && |p.rows| <= MAX_ROWS - p.offset
    && RowsOk(p.rows) && Wire(p) <= MAX_PAGE_BYTES
  }

  function Joined(ps: seq<Page>): seq<Row> {
    if ps == [] then [] else Joined(ps[..|ps| - 1]) + ps[|ps| - 1].rows
  }

  /** Pages that carry just these rows, each where the ones before it end. */
  ghost predicate Carry(ps: seq<Page>, m: Manifest, xs: seq<Row>) {
    && Joined(ps) == xs
    && forall i :: 0 <= i < |ps| ==> PageOk(ps[i]) && ps[i].manifest == m && ps[i].offset == |Joined(ps[..i])|
  }

  lemma SmallOffset(n: nat)
    requires n <= MAX_ROWS
    ensures Decimals(n) <= 6
  {
    assert Decimals(n / 10 / 10) <= 4 by {
      assert n / 10 / 10 / 10 / 10 / 10 <= 1;
      assert Decimals(n / 10 / 10 / 10 / 10) <= 2;
      assert Decimals(n / 10 / 10 / 10) <= 3;
    }
  }

  /** The rows of one page: at most so many, while they fit the byte budget. */
  method Fill(xs: seq<Row>, offset: nat, limit: nat) returns (r: Answer<seq<Row>>)
    requires offset < |xs| && 0 < limit <= MAX_PAGE_ROWS
    ensures r.Ok? ==> 0 < |r.value| <= limit && offset + |r.value| <= |xs| && r.value == xs[offset..offset + |r.value|]
    ensures r.Ok? ==> RowsOk(r.value) && RESERVED + Total(r.value) + |r.value| <= MAX_PAGE_BYTES
    ensures r.Ok? ==> |r.value| == limit || offset + |r.value| == |xs| ||
                      RESERVED + Total(r.value) + |r.value| + xs[offset + |r.value|].size + 1 > MAX_PAGE_BYTES
    ensures RowsOk(xs) ==> r.Ok?
  {
    var rows, bytes := [], RESERVED;
    while |rows| < limit && offset + |rows| < |xs|
      invariant |rows| <= limit && offset + |rows| <= |xs| && rows == xs[offset..offset + |rows|]
      invariant RowsOk(rows) && bytes == RESERVED + Total(rows) + |rows| && bytes <= MAX_PAGE_BYTES
    {
      var x := xs[offset + |rows|];
      if !RowOk(x) {
        return Err(RowTooLarge);
      }
      if bytes + x.size + 1 > MAX_PAGE_BYTES {
        break;
      }
      assert (rows + [x])[..|rows|] == rows;
      bytes := bytes + x.size + 1;
      rows := rows + [x];
    }
    r := Ok(rows);
  }

  lemma FilledPage(p: Page)
    requires 0 < |p.rows| <= MAX_PAGE_ROWS && p.offset <= MAX_ROWS && |p.rows| <= MAX_ROWS - p.offset
    requires RowsOk(p.rows) && RESERVED + Total(p.rows) + |p.rows| <= MAX_PAGE_BYTES
    ensures PageOk(p)
  {
    SmallOffset(p.offset);
  }

  /** Cutting an export into pages always ends: no page is empty. The pages respect every
      limit and carry the exported rows in order. */
  method Pages(xs: seq<Row>, m: Manifest, limit: nat) returns (r: Answer<seq<Page>>)
    ensures r.Ok? ==> Carry(r.value, m, xs) && forall i :: 0 <= i < |r.value| ==> |r.value[i].rows| <= limit
    ensures r.Ok? <==> 0 < limit <= MAX_PAGE_ROWS && RowsOk(xs) && |xs| <= MAX_ROWS
  {
    hide Carry, PageOk, RowOk, Joined, Total;
    if limit == 0 || limit > MAX_PAGE_ROWS {
      return Err(InvalidLimit);
    }
    NoPages(m, xs);
    var pages, offset := [], 0;
    while offset < |xs|
      invariant offset <= |xs| && Carry(pages, m, xs[..offset]) && RowsOk(xs[..offset]) && (offset > 0 ==> offset <= MAX_ROWS)
      invariant forall i :: 0 <= i < |pages| ==> |pages[i].rows| <= limit
    {
      var rows := Fill(xs, offset, limit);
      if rows.Err? {
        return Err(rows.error);
      }
      var page := Page(m, offset, rows.value);
      if page.offset > MAX_ROWS || |page.rows| > MAX_ROWS - page.offset {
        return Err(InvalidPage);
      }
      FilledPage(page);
      AppendPage(pages, m, xs, offset, page);
      assert forall i :: offset <= i < offset + |page.rows| ==> xs[i] == page.rows[i - offset];
      pages, offset := pages + [page], offset + |page.rows|;
    }
    assert xs[..offset] == xs;
    r := Ok(pages);
  }

  lemma NoPages(m: Manifest, xs: seq<Row>)
    ensures Carry([], m, xs[..0])
  {
  }

  lemma AppendPage(ps: seq<Page>, m: Manifest, xs: seq<Row>, offset: nat, p: Page)
    requires offset <= |xs| && Carry(ps, m, xs[..offset]) && PageOk(p) && p.manifest == m && p.offset == offset
    requires offset + |p.rows| <= |xs| && p.rows == xs[offset..offset + |p.rows|]
    ensures Carry(ps + [p], m, xs[..offset + |p.rows|])
  {
    var qs := ps + [p];
    assert qs[..|ps|] == ps;
    assert xs[..offset] + p.rows == xs[..offset + |p.rows|];
    forall i | 0 <= i < |qs|
      ensures PageOk(qs[i]) && qs[i].manifest == m && qs[i].offset == |Joined(qs[..i])|
    {
      if i < |ps| {
        assert qs[..i] == ps[..i] && qs[i] == ps[i];
      }
    }
  }

  // ---------------------------------------------------------------- tables

  predicate Less(x: Row, y: Row) {
    x.table < y.table || (x.table == y.table && x.key < y.key)
  }

  /** The order in which a scan visits rows: by table, then by key. */
  predicate Sorted(xs: seq<Row>) {
    forall i, j :: 0 <= i < j < |xs| ==> Less(xs[i], xs[j])
  }

  predicate ForeignKeysOk(xs: seq<Row>) {
    forall i :: 0 <= i < |xs| && xs[i].parent.Some? ==> exists j :: 0 <= j < |xs| && xs[i].parent.value == (xs[j].table, xs[j].key)
  }

  /** INSERT into a table: the row takes its place in scan order, unless its key is taken. */
  function Insert(live: seq<Row>, x: Row): Option<seq<Row>> {
    if live == [] then Some([x])
    else
      var last := live[|live| - 1];
      if Less(last, x) then Some(live + [x])
      else if (last.table, last.key) == (x.table, x.key) then None
      else
        match Insert(live[..|live| - 1], x)
        case None => None
        case Some(ys) => Some(ys + [last])
  }

  predicate SameKey(x: Row, y: Row) {
    x.table == y.table && x.key == y.key
  }

  /** Inserting keeps the order by table and key and adds just the row; it fails exactly if
      the key is taken. */
  lemma {:induction false} InsertMeans(live: seq<Row>, x: Row)
    requires Sorted(live)
    ensures Insert(live, x).None? <==> exists i :: 0 <= i < |live| && SameKey(live[i], x)
    ensures Insert(live, x).Some? ==> Sorted(Insert(live, x).value) && multiset(Insert(live, x).value) == multiset(live) + multiset{x}
    decreases |live|
  {
    if live != [] {
      var n := |live| - 1;
      var init, last := live[..n], live[n];
      assert live == init + [last];
      FrontIsLess(init, last);
      if Less(last, x) {
        AppendSorted(live, x);
      } else if !SameKey(last, x) {
        InsertMeans(init, x);
        hide Insert, Sorted, Less, SameKey;
        if Insert(init, x).Some? {
          BelowLast(init, x, last, Insert(init, x).value);
          AppendSorted(Insert(init, x).value, last);
        }
      }
    }
  }

  lemma FrontIsLess(init: seq<Row>, last: Row)
    requires Sorted(init + [last])
    ensures Sorted(init) && forall i :: 0 <= i < |init| ==> Less(init[i], last)
  {
    var live := init + [last];
    assert forall i :: 0 <= i < |init| ==> init[i] == live[i] && Less(live[i], live[|init|]);
  }

  lemma AppendSorted(xs: seq<Row>, x: Row)
    requires Sorted(xs) && (xs != [] ==> Less(xs[|xs| - 1], x))
    ensures Sorted(xs + [x]) && forall i :: 0 <= i < |xs| ==> !SameKey(xs[i], x)
  {
    var n := |xs| - 1;
    assert forall i :: 0 <= i < n ==> Less(xs[i], xs[n]);
  }

  lemma BelowLast(init: seq<Row>, x: Row, last: Row, ys: seq<Row>)
    requires (forall i :: 0 <= i < |init| ==> Less(init[i], last)) && Less(x, last) && multiset(ys) == multiset(init) + multiset{x}
    ensures forall i :: 0 <= i < |ys| ==> Less(ys[i], last)
  {
    forall i | 0 <= i < |ys|
      ensures Less(ys[i], last)
    {
      assert ys[i] in multiset(ys);
    }
  }

  /** Columns per table. */
  type Catalog = seq<nat>

  predicate Fits(tables: Catalog, x: Row) {
    x.table < |tables| && |x.values| == tables[x.table]
  }

  function ManifestOf(binding: nat, live: seq<Row>): Manifest {
    Manifest(binding, live, |live|, Total(live), live)
  }

  predicate ManifestOk(m: Manifest) {
    m.rows <= MAX_ROWS && m.bytes <= MAX_BYTES && (m.rows == 0 <==> m.bytes == 0) && m.bytes >= m.rows
  }

  /** What an export may be taken of. */
  predicate Exportable(live: seq<Row>) {
    ForeignKeysOk(live) && RowsOk(live) && |live| <= MAX_ROWS && Total(live) <= MAX_BYTES
  }

  lemma {:induction false} TotalPrefix(xs: seq<Row>, k: nat)
    requires k <= |xs|
    ensures Total(xs[..k]) <= Total(xs)
  {
    if k < |xs| {
      TotalPrefix(xs[..|xs| - 1], k);
      assert xs[..|xs| - 1][..k] == xs[..k];
    } else {
      assert xs[..k] == xs;
    }
  }

  /** Scan the tables: count, bytes and content, within the quota, unless a transfer into
      them is under way. */
  method Scan(binding: nat, live: seq<Row>, receiving: bool) returns (r: Answer<Manifest>)
    ensures r.Ok? ==> r.value == ManifestOf(binding, live) && ManifestOk(r.value)
    ensures r.Ok? <==> !receiving && Exportable(live)
  {
    hide ForeignKeysOk, RowOk;
    if receiving {
      return Err(Receiving);
    }
    if !ForeignKeysOk(live) {
      return Err(ForeignKey);
    }
    var count, bytes := 0, 0;
    while count < |live|
      invariant count <= |live| && bytes == Total(live[..count]) && RowsOk(live[..count])
      invariant count > 0 ==> count <= MAX_ROWS && bytes <= MAX_BYTES
    {
      if !RowOk(live[count]) {
        return Err(RowTooLarge);
      }
      assert live[..count + 1][..count] == live[..count];
      TotalPrefix(live, count + 1);
      bytes := bytes + live[count].size;
      if count >= MAX_ROWS || bytes > MAX_BYTES {
        return Err(Quota);
      }
      count := count + 1;
    }
    assert live[..count] == live;
    r := Ok(ManifestOf(binding, live));
  }

  // ---------------------------------------------------------------- receiving

  datatype Progress = Progress(manifest: Manifest, received: nat, bytes: nat, complete: bool)

  datatype Store = Store(live: seq<Row>, staged: map<nat, Row>, progress: Option<Progress>)

  /** A transfer holds a gap-free prefix of rows, counted exactly. */
  ghost predicate Holds(s: Store, xs: seq<Row>) {
    && s.progress.Some? && s.progress.value.received == |xs| && s.progress.value.bytes == Total(xs)
    && StagedAre(s.staged, xs)
  }

  /** The staging table holds these rows at these positions and nothing else. */
  ghost predicate StagedAre(staged: map<nat, Row>, xs: seq<Row>) {
    (forall i: nat :: i in staged <==> i < |xs|) && forall i: nat :: i < |xs| ==> staged[i] == xs[i]
  }

  /** What a re-read of the tables must show. */
  predicate Shows(live: seq<Row>, m: Manifest) {
    ForeignKeysOk(live) && RowsOk(live) && |live| == m.rows && Total(live) == m.bytes && live == m.content && live == m.state
  }

  /** The rows a page would add, if it comes next. */
  predicate Addable(tables: Catalog, m: Manifest, bytes: nat, xs: seq<Row>) {
    (forall i :: 0 <= i < |xs| ==> Fits(tables, xs[i])) && bytes + Total(xs) <= m.bytes
  }

  /** Whether a page is taken: as the next one, or as an exact repeat of rows already held. */
  ghost predicate Accepts(tables: Catalog, binding: nat, s: Store, held: seq<Row>, page: Page) {
    && PageOk(page) && s.progress.Some? && page.manifest == s.progress.value.manifest && page.manifest.binding == binding
    && page.offset + |page.rows| <= page.manifest.rows
    && (if page.offset < |held|
        then page.offset + |page.rows| <= |held| && page.rows == held[page.offset..page.offset + |page.rows|]
             && (s.progress.value.complete ==> Shows(s.live, page.manifest))
        else page.offset == |held| && !s.progress.value.complete && s.live == []
             && Addable(tables, page.manifest, s.progress.value.bytes, page.rows))
  }

  /** Inserting rows one after another into empty tables. */
  function InsertAll(xs: seq<Row>): Option<seq<Row>> {
    if xs == [] then Some([])
    else
      match InsertAll(xs[..|xs| - 1])
      case None => None
      case Some(live) => Insert(live, xs[|xs| - 1])
  }

  /** Rows that can be inserted make tables of just these rows in key order. */
  lemma {:induction false} InsertAllMeans(xs: seq<Row>)
    ensures InsertAll(xs).Some? ==> Sorted(InsertAll(xs).value) && multiset(InsertAll(xs).value) == multiset(xs)
  {
    if xs != [] {
      var n := |xs| - 1;
      InsertAllMeans(xs[..n]);
      assert xs == xs[..n] + [xs[n]];
      if InsertAll(xs[..n]).Some? {
        InsertMeans(InsertAll(xs[..n]).value, xs[n]);
      }
    }
  }

  lemma {:induction false} SortedInserts(xs: seq<Row>)
    requires Sorted(xs)
    ensures InsertAll(xs) == Some(xs)
  {
    if xs != [] {
      var n := |xs| - 1;
      SortedInserts(xs[..n]);
      if n > 0 {
        assert Less(xs[..n][n - 1], xs[n]);
      }
      assert xs == xs[..n] + [xs[n]];
    }
  }

  lemma {:induction false} TotalConcat(a: seq<Row>, b: seq<Row>)
    ensures Total(a + b) == Total(a) + Total(b)
  {
    if b == [] {
      assert a + b == a;
    } else {
      var n := |b| - 1;
      assert (a + b)[..|a| + n] == a + b[..n];
      TotalConcat(a, b[..n]);
    }
  }

  class Receiver {
    const tables: Catalog
    const binding: nat
    var store: Store
    ghost var held: seq<Row>

    ghost predicate Valid()
      reads this
    {
      if store.progress.Some? then Holds(store, held) && ManifestOk(store.progress.value.manifest) else store.staged == map[]
    }

    constructor (tables: Catalog, binding: nat)
      ensures Valid() && this.tables == tables && this.binding == binding && store == Store([], map[], None)
    {
      this.tables := tables;
      this.binding := binding;
      store := Store([], map[], None);
      held := [];
    }

    /** Open a transfer, or resume the same one. */
    method Begin(m: Manifest) returns (r: Answer<Progress>)
      requires Valid()
      modifies this
      ensures Valid() && store.live == old(store.live)
      ensures r.Ok? ==> store.progress == Some(r.value) && r.value.manifest == m && m.binding == binding && ManifestOk(m)
      ensures r.Ok? && old(store.progress.None?) ==> held == [] && r.value == Progress(m, 0, 0, false) && store.live == []
      ensures r.Err? || old(store.progress.Some?) ==> store == old(store) && held == old(held)
      ensures r.Ok? <==> && ManifestOk(m) && m.binding == binding
                         && (if old(store).progress.None? then old(store).live == [] && old(store).staged == map[]
                             else old(store).progress.value.manifest == m && (old(store).progress.value.complete ==> Shows(old(store).live, m)))
    {
      if !ManifestOk(m) {
        return Err(InvalidManifest);
      }
      if m.binding != binding {
        return Err(BindingMismatch);
      }
      if store.progress.Some? {
        var p := store.progress.value;
        if p.manifest != m {
          return Err(SlotOccupied);
        }
        if p.complete && !Shows(store.live, m) {
          return Err(ContentMismatch);
        }
        return Ok(p);
      }
      if store.live != [] || store.staged != map[] {
        return Err(NotEmpty);
      }
      store := store.(progress := Some(Progress(m, 0, 0, false)));
      held := [];
      r := Ok(store.progress.value);
    }

    /** Take a page. A refused page leaves everything as it was. */
    method Receive(page: Page) returns (r: Answer<Progress>)
      requires Valid()
      modifies this
      ensures Valid() && store.live == old(store.live)
      ensures r.Ok? <==> Accepts(tables, binding, old(store), old(held), page)
      ensures r.Ok? ==> store.progress == Some(r.value) && r.value == old(store.progress.value).(received := |held|, bytes := Total(held))
      ensures held == if r.Ok? && page.offset == old(|held|) then old(held) + page.rows else old(held)
      ensures r.Err? ==> store == old(store)
    {
      if !PageOk(page) {
        return Err(InvalidPage);
      }
      if store.progress.None? {
        return Err(NoTransfer);
      }
      var p := store.progress.value;
      if p.manifest.binding != binding || page.manifest != p.manifest {
        return Err(BindingMismatch);
      }
      var end := page.offset + |page.rows|;
      if end > p.manifest.rows || page.offset > p.received {
        return Err(OutOfOrder);
      }
      if page.offset < p.received {
        if end > p.received {
          return Err(PartialOverlap);
        }
        var same := Repeats(page);
        if !same {
          return Err(Conflict);
        }
        if p.complete && !Shows(store.live, p.manifest) {
          return Err(ContentMismatch);
        }
        return Ok(p);
      }
      if p.complete {
        return Err(AlreadyComplete);
      }
      if store.live != [] {
        return Err(NotEmpty);
      }
      r := Extend(page);
    }

    /** Compare a repeated page with the staged rows. */
    method Repeats(page: Page) returns (same: bool)
      requires Valid() && store.progress.Some? && page.offset + |page.rows| <= |held|
      ensures same <==> page.rows == held[page.offset..page.offset + |page.rows|]
    {
      var i := 0;
      while i < |page.rows|
        invariant i <= |page.rows| && forall k :: 0 <= k < i ==> page.rows[k] == held[page.offset + k]
      {
        if store.staged[page.offset + i] != page.rows[i] {
          return false;
        }
        i := i + 1;
      }
      same := true;
    }

    /** Put the staged rows into the tables and verify them by a fresh scan. A finish that
        fails leaves everything as it was. */
    method Finish() returns (r: Answer<Progress>)
      requires Valid()
      modifies this
      ensures Valid() && held == old(held)
      ensures r.Ok? <==> Finishable(tables, binding, old(store), old(held))
      ensures r.Ok? ==> Shows(store.live, r.value.manifest) && store == old(store).(live := r.value.manifest.content, progress := Some(r.value))
      ensures r.Ok? ==> r.value == old(store.progress.value).(complete := true)
      ensures r.Ok? && !old(store.progress.value.complete) ==> Sorted(store.live) && multiset(store.live) == multiset(held)
      ensures r.Err? ==> store == old(store)
    {
      InsertAllMeans(held);
      if store.progress.None? {
        return Err(NoTransfer);
      }
      var p := store.progress.value;
      if p.manifest.binding != binding || p.received != p.manifest.rows || p.bytes != p.manifest.bytes {
        return Err(Incomplete);
      }
      var live := store.live;
      if !p.complete {
        if live != [] {
          return Err(NotEmpty);
        }
        var built := Rebuild(tables, p.manifest, store.staged, held);
        if built.Err? {
          return Err(built.error);
        }
        live := built.value;
      }
      if !Shows(live, p.manifest) {
        return Err(ContentMismatch);
      }
      store := store.(live := live, progress := Some(p.(complete := true)));
      r := Ok(store.progress.value);
    }

    /** Stage the next page in one transaction. */
    method Extend(page: Page) returns (r: Answer<Progress>)
      requires Valid() && store.progress.Some? && page.offset == |held| && page.rows != []
      modifies this
      ensures Valid() && store.live == old(store.live)
      ensures r.Ok? <==> Addable(tables, old(store.progress.value).manifest, old(store.progress.value).bytes, page.rows)
      ensures r.Ok? ==> held == old(held) + page.rows
      ensures r.Ok? ==> store.progress == Some(r.value) && r.value == old(store.progress.value).(received := |held|, bytes := Total(held))
      ensures r.Err? ==> store == old(store) && held == old(held)
    {
      var p := store.progress.value;
      var staged := StageRows(tables, p.manifest, p.bytes, store.staged, page.offset, page.rows, held);
      if staged.Err? {
        return Err(staged.error);
      }
      TotalConcat(held, page.rows);
      held := held + page.rows;
      store := store.(staged := staged.value, progress := Some(p.(received := page.offset + |page.rows|, bytes := p.bytes + Total(page.rows))));
      r := Ok(store.progress.value);
    }
  }

  /** Check rows against the catalog and the announced bytes, and stage them. */
  method StageRows(tables: Catalog, m: Manifest, before: nat, from: map<nat, Row>, offset: nat, rows: seq<Row>, ghost held: seq<Row>)
    returns (r: Answer<map<nat, Row>>)
    requires StagedAre(from, held) && offset == |held| && rows != []
    ensures r.Ok? <==> Addable(tables, m, before, rows)
    ensures r.Ok? ==> StagedAre(r.value, held + rows)
  {
    var staged: map<nat, Row> := from;
    var bytes, i := before, 0;
    while i < |rows|
      invariant i <= |rows| && bytes == before + Total(rows[..i])
      invariant (i > 0 ==> bytes <= m.bytes) && forall k :: 0 <= k < i ==> Fits(tables, rows[k])
      invariant StagedAre(staged, held + rows[..i])
    {
      var x := rows[i];
      if x.table >= |tables| {
        return Err(UnknownTable);
      }
      if |x.values| != tables[x.table] {
        return Err(WidthMismatch);
      }
      assert rows[..i + 1][..i] == rows[..i];
      TotalPrefix(rows, i + 1);
      bytes := bytes + x.size;
      if bytes > m.bytes {
        return Err(BytesExceeded);
      }
      assert held + rows[..i + 1] == held + rows[..i] + [x];
      staged := staged[offset + i := x];
      i := i + 1;
    }
    assert rows[..i] == rows;
    r := Ok(staged);
  }

  /** When a transfer can be finished. */
  ghost predicate Finishable(tables: Catalog, binding: nat, s: Store, held: seq<Row>) {
    && s.progress.Some? && s.progress.value.manifest.binding == binding
    && |held| == s.progress.value.manifest.rows && Total(held) == s.progress.value.manifest.bytes
    && (if s.progress.value.complete then Shows(s.live, s.progress.value.manifest)
        else s.live == [] && Rebuildable(tables, s.progress.value.manifest, held) && Shows(InsertAll(held).value, s.progress.value.manifest))
  }

  ghost predicate Rebuildable(tables: Catalog, m: Manifest, held: seq<Row>) {
    held == m.content && RowsOk(held) && InsertAll(held).Some? && forall i :: 0 <= i < |held| ==> Fits(tables, held[i])
  }

  /** Insert the staged rows in order of position, checking each again. */
  method Rebuild(tables: Catalog, m: Manifest, staged: map<nat, Row>, ghost held: seq<Row>) returns (r: Answer<seq<Row>>)
    requires StagedAre(staged, held) && |held| == m.rows && Total(held) == m.bytes
    ensures r.Ok? <==> Rebuildable(tables, m, held)
    ensures r.Ok? ==> InsertAll(held) == Some(r.value)
  {
    var live, seen, count, bytes := [], [], 0, 0;
    while count in staged
      invariant count <= |held| && seen == held[..count] && InsertAll(seen) == Some(live) && bytes == Total(seen)
      invariant RowsOk(seen) && forall i :: 0 <= i < count ==> Fits(tables, held[i])
      decreases |held| - count
    {
      var x := staged[count];
      if !RowOk(x) {
        return Err(RowTooLarge);
      }
      if x.table >= |tables| {
        return Err(UnknownTable);
      }
      if |x.values| != tables[x.table] {
        return Err(WidthMismatch);
      }
      assert held[..count + 1] == held[..count] + [x] && held[..count + 1][..count] == held[..count];
      TotalPrefix(held, count + 1);
      if count + 1 > m.rows || bytes + x.size > m.bytes {
        return Err(BytesExceeded);
      }
      var inserted := Insert(live, x);
      if inserted.None? {
        InsertAllFails(held, count + 1);
        return Err(DuplicateKey);
      }
      live, seen, count, bytes := inserted.value, seen + [x], count + 1, bytes + x.size;
    }
    assert held[..count] == held;
    if seen != m.content {
      return Err(ContentMismatch);
    }
    r := Ok(live);
  }

  lemma {:induction false} InsertAllFails(xs: seq<Row>, k: nat)
    requires k <= |xs| && InsertAll(xs[..k]).None?
    ensures InsertAll(xs).None?
  {
    if k < |xs| {
      assert xs[..|xs| - 1][..k] == xs[..k];
      InsertAllFails(xs[..|xs| - 1], k);
    } else {
      assert xs[..k] == xs;
    }
  }

  // ---------------------------------------------------------------- the round trip

  /** What an export of these tables looks like to a receiver of the same catalog. */
  ghost predicate Source(tables: Catalog, xs: seq<Row>) {
    Sorted(xs) && Exportable(xs) && forall i :: 0 <= i < |xs| ==> Fits(tables, xs[i])
  }

  /** How many pages are in after offering them in an order. */
  function Reached(order: seq<nat>): nat {
    if order == [] then 0
    else
      var k := Reached(order[..|order| - 1]);
      if order[|order| - 1] == k then k + 1 else k
  }

  lemma {:induction false} JoinedPrefix(ps: seq<Page>, j: nat)
    requires j <= |ps|
    ensures Joined(ps[..j]) <= Joined(ps)
  {
    if j < |ps| {
      JoinedPrefix(ps[..|ps| - 1], j);
      assert ps[..|ps| - 1][..j] == ps[..j];
    } else {
      assert ps[..j] == ps;
    }
  }

  lemma JoinedNext(ps: seq<Page>, j: nat)
    requires j < |ps|
    ensures Joined(ps[..j + 1]) == Joined(ps[..j]) + ps[j].rows
  {
    assert ps[..j + 1][..j] == ps[..j];
  }

  lemma PageIsFull(p: Page)
    requires PageOk(p)
    ensures p.rows != []
  {
  }

  /** Where a page's rows lie among all rows. */
  lemma PageRange(ps: seq<Page>, m: Manifest, xs: seq<Row>, j: nat)
    requires Carry(ps, m, xs) && j < |ps|
    ensures |Joined(ps[..j])| == ps[j].offset && |Joined(ps[..j + 1])| == ps[j].offset + |ps[j].rows| <= |xs|
    ensures ps[j].rows == xs[ps[j].offset..ps[j].offset + |ps[j].rows|] && ps[j].rows != []
    ensures Joined(ps[..j]) == xs[..ps[j].offset]
    ensures PageOk(ps[j]) && ps[j].manifest == m
  {
    hide PageOk;
    JoinedNext(ps, j);
    JoinedPrefix(ps, j + 1);
    JoinedPrefix(ps, j);
    PageIsFull(ps[j]);
    var upto := Joined(ps[..j + 1]);
    assert upto == xs[..|upto|];
    assert ps[j].rows == upto[ps[j].offset..];
  }

  /** Later pages start no earlier than earlier ones end. */
  lemma PagesInOrder(ps: seq<Page>, m: Manifest, xs: seq<Row>, j: nat, k: nat)
    requires Carry(ps, m, xs) && j < k <= |ps|
    ensures ps[j].offset + |ps[j].rows| <= |Joined(ps[..k])|
  {
    PageRange(ps, m, xs, j);
    JoinedPrefix(ps[..k], j + 1);
    assert ps[..k][..j + 1] == ps[..j + 1];
  }

  /** With k pages in, each of them may be repeated, the next one is taken, and any later
      one is refused. */
  lemma PageIsTaken(tables: Catalog, binding: nat, xs: seq<Row>, ps: seq<Page>, s: Store, k: nat, j: nat)
    requires Source(tables, xs) && Carry(ps, ManifestOf(binding, xs), xs) && k <= |ps| && j < |ps|
    requires Holds(s, Joined(ps[..k])) && s.live == [] && s.progress.value.manifest == ManifestOf(binding, xs) && !s.progress.value.complete
    ensures Accepts(tables, binding, s, Joined(ps[..k]), ps[j]) <==> j <= k
    ensures j <= k ==> (ps[j].offset == |Joined(ps[..k])| <==> j == k)
  {
    hide Carry, Joined, PageOk, Source, Shows, StagedAre, Total, Addable;
    var m := ManifestOf(binding, xs);
    PageRange(ps, m, xs, j);
    JoinedIsPrefix(ps, m, xs, k);
    var held := Joined(ps[..k]);
    if j < k {
      PagesInOrder(ps, m, xs, j, k);
      assert ps[j].rows == held[ps[j].offset..ps[j].offset + |ps[j].rows|];
    } else if j == k {
      NextFits(tables, binding, xs, held, ps[j].rows);
    } else {
      PageRange(ps, m, xs, k);
      PagesInOrder(ps, m, xs, k, j);
    }
  }

  lemma JoinedIsPrefix(ps: seq<Page>, m: Manifest, xs: seq<Row>, k: nat)
    requires Carry(ps, m, xs) && k <= |ps|
    ensures Joined(ps[..k]) <= xs
  {
    JoinedPrefix(ps, k);
  }

  lemma NextFits(tables: Catalog, binding: nat, xs: seq<Row>, held: seq<Row>, rows: seq<Row>)
    requires Source(tables, xs) && |held| + |rows| <= |xs| && held <= xs && rows == xs[|held|..|held| + |rows|]
    ensures Addable(tables, ManifestOf(binding, xs), Total(held), rows)
  {
    hide Sorted, Exportable, Fits, Total;
    assert forall i :: 0 <= i < |rows| ==> rows[i] == xs[|held| + i];
    TotalConcat(held, rows);
    TotalPrefix(xs, |held| + |rows|);
    assert xs[..|held| + |rows|] == held + rows;
  }

  /** Offer pages in any order, with repeats and gaps, then finish. If the order works its way
      through all pages, the receiver's tables scan to the source's manifest. */
  method Transfer(r: Receiver, ps: seq<Page>, order: seq<nat>, ghost xs: seq<Row>) returns (done: Answer<Progress>)
    requires r.Valid() && r.store == Store([], map[], None)
    requires Source(r.tables, xs) && Carry(ps, ManifestOf(r.binding, xs), xs) && ps != []
    requires forall i :: 0 <= i < |order| ==> order[i] < |ps|
    modifies r
    ensures r.Valid() && Reached(order) <= |ps|
    ensures done.Ok? <==> Reached(order) == |ps|
    ensures done.Ok? ==> r.store.live == xs && ManifestOf(r.binding, r.store.live) == ManifestOf(r.binding, xs)
    ensures done.Err? ==> r.store.live == [] && r.held == Joined(ps[..Reached(order)])
  {
    hide RowOk, ForeignKeysOk, Wire, PageOk, Shows, Rebuildable, Addable;
    var m := ps[0].manifest;
    var begun := r.Begin(m);
    assert ps[..0] == [];
    var i := 0;
    while i < |order|
      invariant i <= |order| && r.Valid() && Reached(order[..i]) <= |ps|
      invariant r.store.progress.Some? && r.store.progress.value.manifest == m && !r.store.progress.value.complete && r.store.live == []
      invariant r.held == Joined(ps[..Reached(order[..i])])
    {
      ghost var k := Reached(order[..i]);
      assert order[..i + 1][..i] == order[..i];
      PageIsTaken(r.tables, r.binding, xs, ps, r.store, k, order[i]);
      if order[i] == k {
        JoinedNext(ps, k);
      }
      var taken := r.Receive(ps[order[i]]);
      i := i + 1;
    }
    assert order[..i] == order;
    CanFinish(r.tables, r.binding, xs, ps, r.store, Reached(order));
    done := r.Finish();
  }

  lemma CanFinish(tables: Catalog, binding: nat, xs: seq<Row>, ps: seq<Page>, s: Store, k: nat)
    requires Source(tables, xs) && Carry(ps, ManifestOf(binding, xs), xs) && k <= |ps|
    requires Holds(s, Joined(ps[..k])) && s.live == [] && s.progress.value.manifest == ManifestOf(binding, xs) && !s.progress.value.complete
    ensures Finishable(tables, binding, s, Joined(ps[..k])) <==> k == |ps|
  {
    if k == |ps| {
      assert ps[..k] == ps;
      SortedInserts(xs);
    } else {
      JoinedNext(ps, k);
      JoinedPrefix(ps, k + 1);
      assert PageOk(ps[k]);
    }
  }
}
