/** The first half of recover: comparing two nodes without changing either. Any remote
    call may go unanswered unless the link is healthy. */
module Comparison {
  import opened Basics
  import opened Reference
  import opened Ledgers
  import opened Tables
  import opened Nodes

  /** A primary and a secondary of one identity. */
  predicate Matched(p: Node, s: Node) {
    p.role == Primary && s.role == Secondary && p.identity == s.identity
  }

  /** Whether an unhealthy link loses the message at hand. */
  method Lost(healthy: bool) returns (lost: bool)
    ensures healthy ==> !lost
  {
    lost := false;
    if !healthy {
      lost := *;
    }
  }

  // ---------------------------------------------------------------- comparison

  function Min(a: nat, b: nat): nat {
    if a <= b then a else b
  }

  function Max(a: nat, b: nat): nat {
    if a <= b then b else a
  }

  /** The rows up to a cursor that both nodes have applied. */
  function Shared(p: Ledger, s: Ledger, cursor: nat): nat {
    Min(cursor, Min(|p.applied|, |s.applied|))
  }

  ghost predicate SameBetween(p: Ledger, s: Ledger, lo: nat, hi: nat) {
    && hi <= Length(p) && hi <= Length(s)
    && forall i :: lo <= i < hi ==> Full(p)[i] == Full(s)[i]
  }

  /** The secondary can be brought up from the primary's journal. */
  ghost predicate Reachable(p: Ledger, s: Ledger) {
    Full(s) <= Full(p) && Floor(p) <= |s.applied| && Floor(s) <= |p.applied|
  }

  /** One node's base against the other's checkpoint at the same sequence: they are equal
      just when the second node applied that far along the same history. */
  lemma BaseOnHistory(id: Identity, l: Ledger, n: Ledger)
    requires LedgerOk(id, l) && LedgerOk(id, n) && l.floor.Some? && Floor(n) <= Floor(l)
    ensures CalculateOn(n, id, true, Some(Floor(l))) == Ok(BaseOf(id, l).value) ==>
              Floor(l) <= |n.applied| && SameBetween(l, n, 0, Floor(l))
    ensures (Full(n) <= Full(l) || Full(l) <= Full(n)) && Floor(l) <= |n.applied| ==>
              CalculateOn(n, id, true, Some(Floor(l))) == Ok(BaseOf(id, l).value)
  {
    var f := Floor(l);
    if f <= |n.applied| {
      assert forall i :: 0 <= i < f ==> Full(l)[i] == l.applied[i] && Full(n)[i] == n.applied[i];
      if CheckpointAt(id, l.applied, f) == CheckpointAt(id, n.applied, f) {
        CheckpointFixesHistory(id, l.applied, n.applied, f);
      } else if Full(n) <= Full(l) || Full(l) <= Full(n) {
        PrefixSame(id, l.applied, n.applied, f);
      }
    }
  }

  /** The bases must lie on one history. Equal checkpoints make everything below equal. */
  method CompareBases(p: Node, s: Node, pb: Option<Checkpoint>, sb: Option<Checkpoint>, healthy: bool) returns (r: Outcome<()>)
    requires p.Valid() && s.Valid() && p.identity == s.identity
    requires pb == BaseOf(p.identity, p.ledger) && sb == BaseOf(s.identity, s.ledger)
    ensures r.Ok? ==> BasesMeet(p.ledger, s.ledger)
    ensures healthy && Reachable(p.ledger, s.ledger) ==> r.Ok?
  {
    if pb.Some? && (sb.None? || pb.value.sequence > sb.value.sequence) {
      BaseOnHistory(p.identity, p.ledger, s.ledger);
      var lost := Lost(healthy);
      if lost {
        return Err(Unreachable);
      }
      var at := s.GetCheckpointAt(pb.value.sequence);
      r := if at == Ok(pb.value) then Ok(()) else Err(BaseMismatch);
    } else if sb.Some? {
      BaseOnHistory(s.identity, s.ledger, p.ledger);
      var at := p.GetCheckpointAt(sb.value.sequence);
      r := if at == Ok(sb.value) then Ok(()) else Err(BaseMismatch);
    } else {
      r := Ok(());
    }
  }

  /** Each base lies within the other node's applied history, which is the same below both. */
  ghost predicate BasesMeet(p: Ledger, s: Ledger) {
    && Floor(p) <= |s.applied| && Floor(s) <= |p.applied|
    && SameBetween(p, s, 0, Max(Floor(p), Floor(s)))
  }

  /** Compare one page of both journals. Byte budgets may cut the two pages differently, so
      only the rows on both are compared. */
  method ComparePage(p: Node, s: Node, ph: Head, sh: Head, cursor: nat, prefix: nat, healthy: bool) returns (r: Outcome<(nat, nat)>)
    requires p.Valid() && s.Valid()
    requires ph == HeadOn(p.db, p.identity, p.ledger) && sh == HeadOn(s.db, s.identity, s.ledger)
    requires Max(Floor(p.ledger), Floor(s.ledger)) <= cursor < Length(s.ledger) <= Length(p.ledger)
    requires prefix == Shared(p.ledger, s.ledger, cursor)
    ensures r.Ok? ==> cursor < r.value.0 <= Length(s.ledger) && SameBetween(p.ledger, s.ledger, cursor, r.value.0)
    ensures r.Ok? ==> r.value.1 == Shared(p.ledger, s.ledger, r.value.0)
    ensures healthy && Full(s.ledger) <= Full(p.ledger) ==> r.Ok?
  {
    var limit := Min(sh.length - cursor, MAX_PAGE_ENTRIES);
    var lost := Lost(healthy);
    var a := p.GetPage(ph, cursor, limit);
    var b := s.GetPage(sh, cursor, limit);
    if lost || a.Err? || b.Err? {
      return Err(Unreachable);
    }
    var va := ValidatePage(a.value, ph, cursor, limit);
    var vb := ValidatePage(b.value, sh, cursor, limit);
    if va.Err? || vb.Err? {
      return Err(DataMismatch);
    }
    r := CompareEntries(p.ledger, s.ledger, a.value.entries, b.value.entries, cursor, prefix);
  }

  method CompareEntries(ghost p: Ledger, ghost s: Ledger, a: seq<Entry>, b: seq<Entry>, cursor: nat, prefix: nat) returns (r: Outcome<(nat, nat)>)
    requires cursor + |a| <= Length(p) && cursor + |b| <= Length(s) && a != [] && b != []
    requires forall i :: 0 <= i < |a| ==> a[i] == EntryAt(p, cursor + i + 1) && a[i].body.sequence == cursor + i + 1
    requires forall i :: 0 <= i < |b| ==> b[i] == EntryAt(s, cursor + i + 1)
    requires p.pending.Some? ==> !p.pending.value.state.Applied?
    requires s.pending.Some? ==> !s.pending.value.state.Applied?
    requires prefix == Shared(p, s, cursor)
    ensures r.Ok? ==> cursor < r.value.0 <= Length(s) && SameBetween(p, s, cursor, r.value.0)
    ensures r.Ok? ==> r.value.1 == Shared(p, s, r.value.0)
    ensures Full(s) <= Full(p) ==> r.Ok?
  {
    var n, k, shared := Min(|a|, |b|), 0, prefix;
    while k < n
      invariant k <= n
      invariant SameBetween(p, s, cursor, cursor + k)
      invariant shared == Shared(p, s, cursor + k)
    {
      assert a[k].body == Full(p)[cursor + k] && b[k].body == Full(s)[cursor + k];
      assert a[k].digest == Checksum(a[k].body) && b[k].digest == Checksum(b[k].body);
      if a[k].digest != b[k].digest {
        return Err(DivergentJournals);
      }
      if shared == a[k].body.sequence - 1 && a[k].state.Applied? && b[k].state.Applied? {
        shared := shared + 1;
      }
      k := k + 1;
    }
    r := Ok((cursor + n, shared));
  }

  method CompareRows(p: Node, s: Node, ph: Head, sh: Head, floor: nat, healthy: bool) returns (r: Outcome<nat>)
    requires p.Valid() && s.Valid() && Length(s.ledger) <= Length(p.ledger)
    requires ph == HeadOn(p.db, p.identity, p.ledger) && sh == HeadOn(s.db, s.identity, s.ledger)
    requires floor == Max(Floor(p.ledger), Floor(s.ledger)) && BasesMeet(p.ledger, s.ledger)
    ensures r.Ok? ==> Full(s.ledger) <= Full(p.ledger) && r.value == Min(|p.ledger.applied|, |s.ledger.applied|)
    ensures healthy && Full(s.ledger) <= Full(p.ledger) ==> r.Ok?
  {
    var cursor, prefix := floor, floor;
    while cursor < sh.length
      invariant floor <= cursor <= sh.length
      invariant SameBetween(p.ledger, s.ledger, 0, cursor)
      invariant prefix == Shared(p.ledger, s.ledger, cursor)
    {
      var page := ComparePage(p, s, ph, sh, cursor, prefix, healthy);
      if page.Err? {
        return Err(page.error);
      }
      cursor, prefix := page.value.0, page.value.1;
    }
    r := Ok(prefix);
  }

  /** Everything recover checks before it changes either node. The answer is the length of
      the primary's journal and the prefix both have applied. The check is exact: over a
      healthy link it accepts just the nodes whose journals agree and whose bases lie
      within the other's applied history. */
  method Compare(p: Node, s: Node, healthy: bool) returns (r: Outcome<(nat, nat)>)
    requires p.Valid() && s.Valid()
    ensures r.Ok? ==> Matched(p, s) && Reachable(p.ledger, s.ledger)
    ensures r.Ok? ==> r.value == (Length(p.ledger), Min(|p.ledger.applied|, |s.ledger.applied|))
    ensures healthy ==> (r.Ok? <==> Matched(p, s) && Reachable(p.ledger, s.ledger))
  {
    var ps := p.Head();
    var lost := Lost(healthy);
    var ss := s.Head();
    if lost || ps.Err? || ss.Err? {
      return Err(Unreachable);
    }
    var ph, sh := ps.value, ss.value;
    if p.role != Primary || s.role != Secondary || ph.identity != sh.identity {
      return Err(PairMismatch);
    }
    if sh.length > ph.length {
      return Err(SecondaryAhead);
    }
    var cursor := Max(if ph.base.Some? then ph.base.value.sequence else 0, if sh.base.Some? then sh.base.value.sequence else 0);
    if cursor > sh.length {
      return Err(SecondaryBelowBase);
    }
    var bases := CompareBases(p, s, ph.base, sh.base, healthy);
    if bases.Err? {
      return Err(bases.error);
    }
    var prefix := CompareRows(p, s, ph, sh, cursor, healthy);
    if prefix.Err? {
      return Err(prefix.error);
    }
    lost := Lost(healthy);
    ps := p.Head();
    ss := s.Head();
    if lost || ps != Ok(ph) || ss != Ok(sh) {
      return Err(JournalChanged);
    }
    r := Ok((ph.length, prefix.value));
  }
}
