/** What every run of the transition journal keeps. */
module TransitionLaws {
  import opened Basics
  import opened Transitions

  /** No decided request was cancelled before. */
  predicate NoRevival(initial: nat, slots: seq<Slot>) {
    slots == [] || (NoRevival(initial, Init(slots)) && (Last(slots).Decided? ==> !CancelledId(AbortRows(initial, Init(slots)), Last(slots).record.request.id)))
  }

  /** Holds of every state a run can commit. */
  predicate Lawful(scope: Scope, slots: seq<Slot>) {
    Chained(scope, slots) && NoRevival(scope.initial, slots)
  }

  lemma Snoc(slots: seq<Slot>, s: Slot)
    ensures Init(slots + [s]) == slots && Last(slots + [s]) == s
  {
  }

  // ---------------------------------------------------------------- each operation keeps the law

  /** Appending a decision that fits keeps the law, and keeps the journal readable. */
  lemma AppendKeeps(scope: Scope, slots: seq<Slot>, trust: Trust, r: Record)
    requires Lawful(scope, slots) && SlotOk(scope, slots, Decided(r, None)) && !CancelledId(AbortRows(scope.initial, slots), r.request.id)
    ensures Lawful(scope, slots + [Decided(r, None)])
    ensures Readable(scope, trust, slots) && Certificate(r.token, trust, r.request).Some? ==> Readable(scope, trust, slots + [Decided(r, None)])
  {
    hide SlotOk, AbortsOk, CancelledId, Certificate;
    var n := slots + [Decided(r, None)];
    Snoc(slots, Decided(r, None));
    assert AbortRows(scope.initial, n) == AbortRows(scope.initial, slots);
  }

  lemma DecideKeeps(scope: Scope, slots: seq<Slot>, trust: Trust, q: Request, token: Token, now: nat, policy: Policy)
    requires Lawful(scope, slots)
    ensures Lawful(scope, DecideOn(scope, slots, trust, q, token, now, policy).1)
    ensures Readable(scope, trust, slots) ==> Readable(scope, trust, DecideOn(scope, slots, trust, q, token, now, policy).1)
  {
    hide ValidRequest, Chains, Chained, NoRevival, TokensOk, AbortsOk, AbortRows, FindAbort, CancelledId, Effective, Ids;
    var n := DecideOn(scope, slots, trust, q, token, now, policy).1;
    if n != slots {
      AppendKeeps(scope, slots, trust, Record(q, token, Acks(false, false), None));
    }
  }

  lemma SetHeadKeeps(scope: Scope, slots: seq<Slot>, trust: Trust, r: Record)
    requires Lawful(scope, slots) && !Done(Effective(slots)) && RecordOk(r)
    requires r.request == Effective(slots).value.request && r.token == Effective(slots).value.token
    ensures slots != [] && Lawful(scope, SetHead(slots, r))
    ensures Readable(scope, trust, slots) ==> Readable(scope, trust, SetHead(slots, r))
    ensures AbortRows(scope.initial, SetHead(slots, r)) == AbortRows(scope.initial, slots)
  {
    hide ValidRequest, ValidAbort, Chains, AbortsOk;
    OpenHeadIsLast(scope, slots);
    var n := SetHead(slots, r);
    Snoc(Init(slots), Last(n));
    assert forall i :: 0 <= i < |slots| - 1 ==> n[i] == slots[i];
  }

  lemma AcknowledgeKeeps(scope: Scope, slots: seq<Slot>, trust: Trust, d: Handle, m: Participant, policy: Policy)
    requires Lawful(scope, slots)
    ensures Lawful(scope, AcknowledgeOn(scope, slots, trust, d, m, policy).1)
    ensures Readable(scope, trust, slots) ==> Readable(scope, trust, AcknowledgeOn(scope, slots, trust, d, m, policy).1)
  {
    hide Chained, NoRevival, TokensOk, AbortsOk, AbortRows, FindAbort, Effective;
    var n := AcknowledgeOn(scope, slots, trust, d, m, policy).1;
    if n != slots {
      OpenHeadIsLast(scope, slots);
      SetHeadKeeps(scope, slots, trust, Acked(Effective(slots).value, m));
    }
  }

  lemma CompleteKeeps(scope: Scope, slots: seq<Slot>, trust: Trust, d: Handle, id: Id, policy: Policy)
    requires Lawful(scope, slots)
    ensures Lawful(scope, CompleteOn(scope, slots, trust, d, id, policy).1)
    ensures Readable(scope, trust, slots) ==> Readable(scope, trust, CompleteOn(scope, slots, trust, d, id, policy).1)
  {
    hide Chained, NoRevival, TokensOk, AbortsOk, AbortRows, FindAbort, Effective;
    var n := CompleteOn(scope, slots, trust, d, id, policy).1;
    if n != slots {
      SetHeadKeeps(scope, slots, trust, Effective(slots).value.(completion := Some(id)));
    }
  }

  /** Neither the abort's id nor the request it cancels was named by an earlier abort. */
  predicate FreshAbort(rows: seq<AbortRow>, a: Abort) {
    forall i :: 0 <= i < |rows| ==> rows[i].record.abort.id != a.id && rows[i].record.abort.requestId != a.requestId
  }

  /** Cancelling the open head: only the last slot changes. */
  lemma CancelHead(scope: Scope, slots: seq<Slot>, x: AbortRecord)
    requires Lawful(scope, slots) && AbortOk(scope, x.abort.abortedRevision, x) && x.abort.decided
    requires AbortShape(scope, slots, x.abort).None?
    ensures slots != [] && Live(Last(slots)) && Last(slots).record.completion.None?
    ensures Cancelled(scope, slots, x) == Init(slots) + [Decided(Last(slots).record, Some(x))]
    ensures Lawful(scope, Cancelled(scope, slots, x))
    ensures AbortRows(scope.initial, Cancelled(scope, slots, x)) == AbortRows(scope.initial, slots) + [AbortRow(x.abort.abortedRevision, x)]
  {
    hide ValidRequest, ValidAbort;
    OpenHeadIsLast(scope, slots);
    Snoc(Init(slots), Decided(Last(slots).record, Some(x)));
  }

  /** Cancelling an attempt that was never decided takes the next revision. */
  lemma CancelNext(scope: Scope, slots: seq<Slot>, x: AbortRecord)
    requires Lawful(scope, slots) && AbortOk(scope, x.abort.abortedRevision, x) && !x.abort.decided
    requires AbortShape(scope, slots, x.abort).None?
    ensures Cancelled(scope, slots, x) == slots + [Burned(x)]
    ensures Lawful(scope, Cancelled(scope, slots, x))
    ensures AbortRows(scope.initial, Cancelled(scope, slots, x)) == AbortRows(scope.initial, slots) + [AbortRow(x.abort.abortedRevision, x)]
  {
    hide ValidRequest, ValidAbort;
    Snoc(slots, Burned(x));
  }

  lemma CancelledKeeps(scope: Scope, slots: seq<Slot>, trust: Trust, x: AbortRecord)
    requires Lawful(scope, slots) && AbortOk(scope, x.abort.abortedRevision, x) && AbortShape(scope, slots, x.abort).None?
    ensures Lawful(scope, Cancelled(scope, slots, x))
    ensures AbortRows(scope.initial, Cancelled(scope, slots, x)) == AbortRows(scope.initial, slots) + [AbortRow(x.abort.abortedRevision, x)]
    ensures TokensOk(trust, slots) ==> TokensOk(trust, Cancelled(scope, slots, x))
  {
    hide Chained, NoRevival, AbortShape, Cancels, AbortRows, Certificate;
    if x.abort.decided {
      CancelHead(scope, slots, x);
    } else {
      CancelNext(scope, slots, x);
    }
  }

  /** The exact condition under which a committed abort leaves a journal that can be read
      again. The operation itself does not check it. */
  lemma AbortKeeps(scope: Scope, slots: seq<Slot>, trust: Trust, a: Abort, token: Token, now: nat, policy: Policy)
    requires Lawful(scope, slots)
    ensures Lawful(scope, AbortOn(scope, slots, trust, a, token, now, policy).1)
    ensures AbortOn(scope, slots, trust, a, token, now, policy).1 != slots ==>
              (Readable(scope, trust, AbortOn(scope, slots, trust, a, token, now, policy).1) <==> FreshAbort(AbortRows(scope.initial, slots), a))
  {
    hide ValidBinding, Chained, NoRevival, AbortShape, Cancelled, TokensOk, AbortsOk, AbortRows, FindAbort, Effective;
    var (r, n) := AbortOn(scope, slots, trust, a, token, now, policy);
    if n != slots {
      CancelledKeeps(scope, slots, trust, r.value);
      AppendedAbort(scope, trust, AbortRows(scope.initial, slots), AbortRow(a.abortedRevision, r.value));
    }
  }

  lemma AppendedAbort(scope: Scope, trust: Trust, rows: seq<AbortRow>, x: AbortRow)
    requires AbortsOk(scope, trust, rows) && |rows| < MAX_ABORT_ROWS && AbortRowOk(scope, trust, x)
    ensures AbortsOk(scope, trust, rows + [x]) <==> FreshAbort(rows, x.record.abort)
  {
    var all := rows + [x];
    assert forall i :: 0 <= i < |rows| ==> all[i] == rows[i];
    assert all[|rows|] == x;
    assert forall i, j :: 0 <= i < j < |all| ==> (Differ(all[i], all[j]) <==> j < |rows| || Differ(rows[i], x));
    assert FreshAbort(rows, x.record.abort) <==> forall i :: 0 <= i < |rows| ==> Differ(rows[i], x);
    if AbortsOk(scope, trust, all) {
      assert forall i :: 0 <= i < |rows| ==> Differ(all[i], all[|rows|]);
    }
  }

  // ---------------------------------------------------------------- runs

  datatype Op =
    | Decide(request: Request, token: Token, now: nat, policy: Policy)
    | Acknowledge(decision: Handle, member: Participant, policy: Policy)
    | Complete(decision: Handle, id: Id, policy: Policy)
    | Cancel(abort: Abort, token: Token, now: nat, policy: Policy)

  function After(scope: Scope, trust: Trust, slots: seq<Slot>, op: Op): seq<Slot> {
    match op
    case Decide(q, token, now, policy) => DecideOn(scope, slots, trust, q, token, now, policy).1
    case Acknowledge(d, m, policy) => AcknowledgeOn(scope, slots, trust, d, m, policy).1
    case Complete(d, id, policy) => CompleteOn(scope, slots, trust, d, id, policy).1
    case Cancel(a, token, now, policy) => AbortOn(scope, slots, trust, a, token, now, policy).1
  }

  function Run(scope: Scope, trust: Trust, slots: seq<Slot>, ops: seq<Op>): seq<Slot>
    decreases |ops|
  {
    if ops == [] then slots else Run(scope, trust, After(scope, trust, slots, ops[0]), ops[1..])
  }

  /** Every abort of the run that is recorded names an id and a request no earlier one did. */
  predicate Prudent(scope: Scope, trust: Trust, slots: seq<Slot>, ops: seq<Op>)
    decreases |ops|
  {
    ops == [] ||
    (&& (ops[0].Cancel? && After(scope, trust, slots, ops[0]) != slots ==> FreshAbort(AbortRows(scope.initial, slots), ops[0].abort))
     && Prudent(scope, trust, After(scope, trust, slots, ops[0]), ops[1..]))
  }

  lemma AfterKeeps(scope: Scope, trust: Trust, slots: seq<Slot>, op: Op)
    requires Lawful(scope, slots)
    ensures Lawful(scope, After(scope, trust, slots, op))
    ensures Readable(scope, trust, slots) && (op.Cancel? && After(scope, trust, slots, op) != slots ==> FreshAbort(AbortRows(scope.initial, slots), op.abort)) ==>
              Readable(scope, trust, After(scope, trust, slots, op))
  {
    hide Chained, NoRevival, Readable, DecideOn, AcknowledgeOn, CompleteOn, AbortOn, FreshAbort, AbortRows;
    match op
    case Decide(q, token, now, policy) => DecideKeeps(scope, slots, trust, q, token, now, policy);
    case Acknowledge(d, m, policy) => AcknowledgeKeeps(scope, slots, trust, d, m, policy);
    case Complete(d, id, policy) => CompleteKeeps(scope, slots, trust, d, id, policy);
    case Cancel(a, token, now, policy) => AbortKeeps(scope, slots, trust, a, token, now, policy);
  }

  /** Every state committed by any run is lawful. If its aborts are prudent, each state is
      one that the replay of the next read accepts. */
  lemma {:induction false} EveryRunIsLawful(scope: Scope, trust: Trust, slots: seq<Slot>, ops: seq<Op>)
    requires Lawful(scope, slots)
    ensures Lawful(scope, Run(scope, trust, slots, ops))
    ensures Readable(scope, trust, slots) && Prudent(scope, trust, slots, ops) ==> Readable(scope, trust, Run(scope, trust, slots, ops))
    decreases |ops|
  {
    hide Chained, NoRevival, Readable, After;
    if ops != [] {
      AfterKeeps(scope, trust, slots, ops[0]);
      EveryRunIsLawful(scope, trust, After(scope, trust, slots, ops[0]), ops[1..]);
    }
  }

  /** A new journal can be read and is lawful. */
  lemma StartIsLawful(scope: Scope, trust: Trust)
    ensures Lawful(scope, []) && Readable(scope, trust, [])
  {
  }

  // ---------------------------------------------------------------- nothing used is reused

  predicate Open(s: Slot) {
    Live(s) && s.record.completion.None?
  }

  /** An open decision may be acknowledged, completed or cancelled; any other use of a
      revision is final. */
  predicate Evolves(s: Slot, t: Slot) {
    if Open(s) then t.Decided? && t.record.request == s.record.request && t.record.token == s.record.token else t == s
  }

  predicate Extends(slots: seq<Slot>, n: seq<Slot>) {
    |slots| <= |n| && forall i :: 0 <= i < |slots| ==> Evolves(slots[i], n[i])
  }

  lemma AfterExtends(scope: Scope, trust: Trust, slots: seq<Slot>, op: Op)
    requires Lawful(scope, slots)
    ensures Extends(slots, After(scope, trust, slots, op))
  {
    hide Chained, NoRevival, Readable, FindAbort, CancelledId, Chains, AbortRows;
    OpenHeadIsLast(scope, slots);
    if op.Cancel? {
      var (r, n) := AbortOn(scope, slots, trust, op.abort, op.token, op.now, op.policy);
      if n != slots {
        if op.abort.decided {
          CancelHead(scope, slots, r.value);
        } else {
          CancelNext(scope, slots, r.value);
        }
      }
    }
  }

  /** Over whole runs: revisions are only ever appended, a completed or cancelled one never
      changes again, and a decided one keeps its request and token. */
  lemma {:induction false} RunExtends(scope: Scope, trust: Trust, slots: seq<Slot>, ops: seq<Op>)
    requires Lawful(scope, slots)
    ensures Extends(slots, Run(scope, trust, slots, ops))
    decreases |ops|
  {
    hide Chained, NoRevival, After;
    if ops != [] {
      var n := After(scope, trust, slots, ops[0]);
      AfterKeeps(scope, trust, slots, ops[0]);
      AfterExtends(scope, trust, slots, ops[0]);
      RunExtends(scope, trust, n, ops[1..]);
      forall i | 0 <= i < |slots|
        ensures Evolves(slots[i], Run(scope, trust, slots, ops)[i])
      {
        assert Evolves(slots[i], n[i]) && Evolves(n[i], Run(scope, trust, n, ops[1..])[i]);
      }
    }
  }

  predicate Stored(history: seq<Row>, aborts: seq<AbortRow>, revision: nat) {
    || (exists i :: 0 <= i < |history| && history[i].revision == revision)
    || (exists i :: 0 <= i < |aborts| && aborts[i].revision == revision)
  }

  /** The revisions in the two tables are exactly the interval from the first to the head. */
  lemma {:induction false} ConsumedIsInterval(initial: nat, slots: seq<Slot>, revision: nat)
    ensures Stored(HistoryRows(initial, slots), AbortRows(initial, slots), revision) <==> initial <= revision < initial + |slots|
  {
    if slots != [] {
      ConsumedIsInterval(initial, Init(slots), revision);
      var h, a := HistoryRows(initial, Init(slots)), AbortRows(initial, Init(slots));
      var last := initial + |slots| - 1;
      var more := if Last(slots).Decided? then [Row(last, Last(slots).record)] else [];
      var moreAborts := if AbortOf(Last(slots)).Some? then [AbortRow(last, AbortOf(Last(slots)).value)] else [];
      StoredMore(h, a, more, moreAborts, revision, last);
    }
  }

  lemma StoredMore(h: seq<Row>, a: seq<AbortRow>, more: seq<Row>, moreAborts: seq<AbortRow>, revision: nat, last: nat)
    requires |more| <= 1 && |moreAborts| <= 1 && |more| + |moreAborts| > 0
    requires (forall x :: x in more ==> x.revision == last) && (forall x :: x in moreAborts ==> x.revision == last)
    ensures Stored(h + more, a + moreAborts, revision) <==> Stored(h, a, revision) || revision == last
  {
    assert forall i :: 0 <= i < |h| ==> (h + more)[i] == h[i];
    assert forall i :: 0 <= i < |a| ==> (a + moreAborts)[i] == a[i];
    assert more != [] ==> (h + more)[|h|] == more[0] && more[0] in more;
    assert moreAborts != [] ==> (a + moreAborts)[|a|] == moreAborts[0] && moreAborts[0] in moreAborts;
  }

  /** A cancelled request is never decided afterwards, and no request is decided twice. */
  lemma {:induction false} CancelledIsNeverDecided(scope: Scope, slots: seq<Slot>, j: nat, k: nat)
    requires Lawful(scope, slots) && j < k < |slots| && slots[k].Decided?
    ensures AbortOf(slots[j]).Some? ==> slots[k].record.request.id != AbortOf(slots[j]).value.abort.requestId
    ensures slots[j].Decided? ==> slots[k].record.request.id != slots[j].record.request.id
  {
    hide ValidRequest, ValidAbort, Chains;
    if k < |slots| - 1 {
      CancelledIsNeverDecided(scope, Init(slots), j, k);
    } else {
      RowAndId(scope.initial, Init(slots), j);
    }
  }

  lemma {:induction false} RowAndId(initial: nat, slots: seq<Slot>, j: nat)
    requires j < |slots|
    ensures AbortOf(slots[j]).Some? ==> AbortRow(initial + j, AbortOf(slots[j]).value) in AbortRows(initial, slots)
    ensures AbortOf(slots[j]).Some? ==> CancelledId(AbortRows(initial, slots), AbortOf(slots[j]).value.abort.requestId)
    ensures slots[j].Decided? ==> slots[j].record.request.id in Ids(slots)
  {
    if j < |slots| - 1 {
      RowAndId(initial, Init(slots), j);
    }
    if AbortOf(slots[j]).Some? {
      var rows := AbortRows(initial, slots);
      assert AbortRow(initial + j, AbortOf(slots[j]).value) in rows;
      var i :| 0 <= i < |rows| && rows[i] == AbortRow(initial + j, AbortOf(slots[j]).value);
    }
  }

  // ---------------------------------------------------------------- one chain of transitions

  /** The same member in the same generation. */
  predicate SameNode(m: Participant, n: Participant) {
    m.member == n.member && m.generation == n.generation
  }

  /** Records that were not cancelled form one chain: each is complete before the next, the
      next starts from its target with the same two participants, and targets strictly
      increase. */
  lemma {:induction false} OneChain(scope: Scope, slots: seq<Slot>, j: nat, k: nat)
    requires Chained(scope, slots) && j < k < |slots| && Live(slots[j]) && Live(slots[k])
    ensures slots[j].record.completion.Some?
    ensures slots[j].record.request.primary.target.sequence < slots[k].record.request.primary.target.sequence
    ensures (forall i :: j < i < k ==> !Live(slots[i])) ==>
              slots[k].record.request.primary.oldBase == slots[k].record.request.secondary.oldBase == Some(slots[j].record.request.primary.target)
    ensures SameNode(slots[j].record.request.primary, slots[k].record.request.primary)
    ensures SameNode(slots[j].record.request.secondary, slots[k].record.request.secondary)
    decreases k
  {
    ChainedAt(scope, slots, k);
    LiveBefore(slots[..k], j);
    var p := EffectiveAt(slots[..k]);
    assert forall i :: 0 <= i < k ==> slots[..k][i] == slots[i];
    if j < p {
      OneChain(scope, slots, j, p);
    }
  }

  lemma {:induction false} LiveBefore(slots: seq<Slot>, j: nat)
    requires j < |slots| && Live(slots[j])
    ensures Effective(slots).Some?
  {
    if j < |slots| - 1 && !Live(Last(slots)) {
      LiveBefore(Init(slots), j);
    }
  }

  /** Deciding a request and cancelling it leaves the head, and the certificate the pair
      lives on, as they were; only the revision is spent. */
  lemma DecideThenCancel(scope: Scope, trust: Trust, slots: seq<Slot>, d: Op, c: Op)
    requires Lawful(scope, slots) && d.Decide? && c.Cancel?
    requires After(scope, trust, slots, d) != slots && After(scope, trust, After(scope, trust, slots, d), c) != After(scope, trust, slots, d)
    ensures var n := After(scope, trust, After(scope, trust, slots, d), c);
            && Effective(n) == Effective(slots) && LastCompleted(n) == LastCompleted(slots) && |n| == |slots| + 1
  {
    hide ValidRequest, ValidAbort, Readable, NoRevival, FindAbort, CancelledId, Chains, Chained, AbortRows;
    var m := After(scope, trust, slots, d);
    AfterKeeps(scope, trust, slots, d);
    Snoc(slots, Last(m));
    var (r, n) := AbortOn(scope, m, trust, c.abort, c.token, c.now, c.policy);
    if c.abort.decided {
      CancelHead(scope, m, r.value);
      Snoc(Init(m), Last(n));
    }
  }

  // ---------------------------------------------------------------- retries

  lemma FindSnoc(rows: seq<AbortRow>, x: AbortRow, revision: nat)
    ensures FindAbort(rows + [x], revision) == if x.revision == revision then Some(x.record) else FindAbort(rows, revision)
  {
    assert (rows + [x])[..|rows|] == rows;
  }

  lemma {:induction false} FindAbortAt(initial: nat, slots: seq<Slot>, revision: nat)
    ensures FindAbort(AbortRows(initial, slots), revision) ==
              if initial <= revision < initial + |slots| then AbortOf(slots[revision - initial]) else None
  {
    if slots != [] {
      FindAbortAt(initial, Init(slots), revision);
      hide FindAbort, AbortOf;
      var rows := AbortRows(initial, Init(slots));
      if AbortOf(Last(slots)).Some? {
        FindSnoc(rows, AbortRow(initial + |slots| - 1, AbortOf(Last(slots)).value), revision);
      } else {
        assert AbortRows(initial, slots) == rows;
      }
    }
  }

  /** A recorded abort can be repeated at any later time, whatever ran in between and
      however expired its token is, and answers with the same record. */
  lemma AbortRetryConverges(scope: Scope, trust: Trust, slots: seq<Slot>, a: Abort, token: Token, now: nat, policy: Policy,
                            ops: seq<Op>, later: nat, again: Policy)
    requires Lawful(scope, slots) && AbortOn(scope, slots, trust, a, token, now, policy).0.Ok?
    requires Readable(scope, trust, Run(scope, trust, AbortOn(scope, slots, trust, a, token, now, policy).1, ops))
    requires again.continuity && again.continuityAgain
    ensures AbortOn(scope, Run(scope, trust, AbortOn(scope, slots, trust, a, token, now, policy).1, ops), trust, a, token, later, again)
         == (AbortOn(scope, slots, trust, a, token, now, policy).0, Run(scope, trust, AbortOn(scope, slots, trust, a, token, now, policy).1, ops))
  {
    hide Lawful, Readable, AbortRows, FindAbort, ValidAbort, Run, AbortOn;
    var (r, m) := AbortOn(scope, slots, trust, a, token, now, policy);
    var n := Run(scope, trust, m, ops);
    RecordedAt(scope, slots, trust, a, token, now, policy);
    AbortKeeps(scope, slots, trust, a, token, now, policy);
    RunExtends(scope, trust, m, ops);
    FindAbortAt(scope.initial, m, a.abortedRevision);
    FindAbortAt(scope.initial, n, a.abortedRevision);
    assert Evolves(m[a.abortedRevision - scope.initial], n[a.abortedRevision - scope.initial]);
    KnownAbort(scope, n, trust, r.value, later, again);
  }

  lemma KnownAbort(scope: Scope, slots: seq<Slot>, trust: Trust, x: AbortRecord, now: nat, policy: Policy)
    requires Readable(scope, trust, slots) && FindAbort(AbortRows(scope.initial, slots), x.abort.abortedRevision) == Some(x)
    requires ValidAbort(x.abort) && x.abort.binding == scope.binding && policy.continuity && policy.continuityAgain
    ensures AbortOn(scope, slots, trust, x.abort, x.token, now, policy) == (Ok(x), slots)
  {
    hide Readable, AbortRows, FindAbort, ValidAbort, Effective, AbortShape, Cancelled;
  }

  lemma RecordedAt(scope: Scope, slots: seq<Slot>, trust: Trust, a: Abort, token: Token, now: nat, policy: Policy)
    requires Lawful(scope, slots) && AbortOn(scope, slots, trust, a, token, now, policy).0.Ok?
    ensures var (r, m) := AbortOn(scope, slots, trust, a, token, now, policy);
            && FindAbort(AbortRows(scope.initial, m), a.abortedRevision) == Some(r.value) && r.value.abort == a && r.value.token == token
            && ValidAbort(a) && a.binding == scope.binding
  {
    hide Chained, NoRevival, ValidAbort, AbortShape, Readable, Effective;
    var (r, m) := AbortOn(scope, slots, trust, a, token, now, policy);
    if FindAbort(AbortRows(scope.initial, slots), a.abortedRevision).None? {
      CancelledKeeps(scope, slots, trust, r.value);
    }
  }

  // ---------------------------------------------------------------- what an abort is not checked for

  const BINDING: Binding := Binding("i", "r", 1, 1, 1, Point(0, 1), 1)
  const SCOPE: Scope := Scope(BINDING, 1)
  const GRANTED: Policy := Policy(true, true, true, true, true)

  function SampleAbort(id: Id, revision: nat, requestId: Id): Abort {
    Abort(2, id, revision, BINDING, Foreign(1), requestId, revision, false)
  }

  lemma SampleIsValid()
    ensures ValidBinding(BINDING)
  {
    assert "i"[0] !in " \t\n\r" && "r"[0] !in " \t\n\r";
  }

  /** An abort of a never decided attempt that the policy and the authority admit. */
  lemma Burns(scope: Scope, slots: seq<Slot>, trust: Trust, a: Abort, token: Token, now: nat)
    requires ValidAbort(a) && Readable(scope, trust, slots) && a.binding == scope.binding && Done(Effective(slots))
    requires FindAbort(AbortRows(scope.initial, slots), a.abortedRevision).None? && |AbortRows(scope.initial, slots)| < MAX_ABORT_ROWS
    requires !a.decided && a.abortedRevision == scope.initial + |slots|
    requires Effective(slots).Some? ==> Effective(slots).value.request.revision != a.abortedRevision
    requires AbortIssuable(token, trust, a, now).Some?
    ensures var x := AbortRecord(2, a, token, AbortIssuable(token, trust, a, now).value);
            AbortOn(scope, slots, trust, a, token, now, GRANTED) == (Ok(x), slots + [Burned(x)])
  {
    hide Readable, ValidAbort, FindAbort, AbortRows, Effective;
  }

  lemma OneBurned(initial: nat, x: AbortRecord)
    ensures Effective([]).None? && AbortRows(initial, []) == [] && FindAbort([], initial).None?
    ensures Effective([Burned(x)]).None? && AbortRows(initial, [Burned(x)]) == [AbortRow(initial, x)]
    ensures FindAbort([AbortRow(initial, x)], initial + 1).None?
  {
    assert Init([Burned(x)]) == [];
    assert [AbortRow(initial, x)][..0] == [];
  }

  /** Not every committed state can be read again: whenever two attempts in a new journal are
      cancelled under one abort id, both cancellations are recorded, and every later read is
      refused. */
  lemma RepeatedAbortIdBlocksReading(scope: Scope, trust: Trust, a: Abort, b: Abort, s: Token, t: Token, now: nat)
    requires ValidAbort(a) && ValidAbort(b) && a.binding == b.binding == scope.binding && !a.decided && !b.decided
    requires a.abortedRevision == scope.initial && b.abortedRevision == scope.initial + 1 && a.id == b.id
    requires AbortIssuable(s, trust, a, now).Some? && AbortIssuable(t, trust, b, now).Some?
    ensures var (first, one) := AbortOn(scope, [], trust, a, s, now, GRANTED);
            var (second, two) := AbortOn(scope, one, trust, b, t, now, GRANTED);
            first.Ok? && Readable(scope, trust, one) && second.Ok? && !Readable(scope, trust, two)
  {
    hide ValidAbort, AbortOn, Readable, Lawful, AbortIssuable, Effective, AbortRows, FindAbort;
    StartIsLawful(scope, trust);
    var x := AbortRecord(2, a, s, AbortIssuable(s, trust, a, now).value);
    var one := [Burned(x)];
    OneBurned(scope.initial, x);
    Burns(scope, [], trust, a, s, now);
    AbortKeeps(scope, [], trust, a, s, now, GRANTED);
    assert [] + [Burned(x)] == one;
    Burns(scope, one, trust, b, t, now);
    AbortKeeps(scope, one, trust, b, t, now, GRANTED);
    assert AbortRows(scope.initial, one)[0].record.abort.id == b.id;
  }

  /** Such inputs exist. */
  lemma RepeatedAbortIdExample(trust: Trust)
    requires trust.aborts == map[0 := AbortClaims(SampleAbort(7, 1, 10), 1, 0, 1), 1 := AbortClaims(SampleAbort(7, 2, 11), 1, 0, 1)]
    ensures var one := AbortOn(SCOPE, [], trust, SampleAbort(7, 1, 10), 0, 0, GRANTED).1;
            Readable(SCOPE, trust, one) && !Readable(SCOPE, trust, AbortOn(SCOPE, one, trust, SampleAbort(7, 2, 11), 1, 0, GRANTED).1)
  {
    hide ValidBinding, AbortOn, Readable;
    SampleIsValid();
    RepeatedAbortIdBlocksReading(SCOPE, trust, SampleAbort(7, 1, 10), SampleAbort(7, 2, 11), 0, 1, 0);
  }

  /** No completed request is named by an abort. */
  predicate CompletedUntouched(initial: nat, slots: seq<Slot>) {
    forall k :: 0 <= k < |slots| && slots[k].Decided? && slots[k].record.completion.Some? ==>
      !CancelledId(AbortRows(initial, slots), slots[k].record.request.id)
  }

  predicate NamesCompleted(slots: seq<Slot>, id: Id) {
    exists k :: 0 <= k < |slots| && slots[k].Decided? && slots[k].record.completion.Some? && slots[k].record.request.id == id
  }

  /** By revision a completed transition is never cancelled. By request id it can be: an
      abort of an attempt said never to have been decided may name any request. It names a
      completed one exactly when the abort does. */
  lemma CompletedStaysUntouchedIff(scope: Scope, slots: seq<Slot>, trust: Trust, a: Abort, token: Token, now: nat, policy: Policy)
    requires Lawful(scope, slots) && CompletedUntouched(scope.initial, slots)
    requires AbortOn(scope, slots, trust, a, token, now, policy).1 != slots
    ensures CompletedUntouched(scope.initial, AbortOn(scope, slots, trust, a, token, now, policy).1) <==> !NamesCompleted(slots, a.requestId)
  {
    hide ValidAbort, Chained, NoRevival, FindAbort, AbortRows, Readable, Effective, AbortShape;
    var (r, n) := AbortOn(scope, slots, trust, a, token, now, policy);
    CancelledKeeps(scope, slots, trust, r.value);
    var rows, x := AbortRows(scope.initial, slots), AbortRow(a.abortedRevision, r.value);
    assert forall id :: CancelledId(rows + [x], id) <==> CancelledId(rows, id) || id == a.requestId by {
      forall id: Id
        ensures CancelledId(rows + [x], id) <==> CancelledId(rows, id) || id == a.requestId
      {
        CancelledMore(rows, x, id);
      }
    }
    if a.decided {
      CancelHead(scope, slots, r.value);
      HeadIsNamed(scope, slots, a);
      forall k | 0 <= k < |slots| - 1 && slots[k].Decided?
        ensures slots[k].record.request.id != a.requestId
      {
        CancelledIsNeverDecided(scope, slots, k, |slots| - 1);
      }
    } else {
      CancelNext(scope, slots, r.value);
      assert forall k :: 0 <= k < |slots| ==> n[k] == slots[k];
    }
  }

  lemma HeadIsNamed(scope: Scope, slots: seq<Slot>, a: Abort)
    requires Chained(scope, slots) && AbortShape(scope, slots, a).None? && a.decided && slots != [] && Live(Last(slots))
    ensures a.requestId == Last(slots).record.request.id
  {
  }

  lemma CancelledMore(rows: seq<AbortRow>, x: AbortRow, id: Id)
    ensures CancelledId(rows + [x], id) <==> CancelledId(rows, id) || id == x.record.abort.requestId
  {
    assert forall i :: 0 <= i < |rows| ==> (rows + [x])[i] == rows[i];
    assert (rows + [x])[|rows|] == x;
  }

  function SampleRequest(): Request {
    Request(1, 9, 1, BINDING, Participant(1, 1, None, Point(1, 1), 1, 1), Participant(2, 2, None, Point(1, 1), 1, 1))
  }

  /** A completed request that an abort then names. */
  lemma CompletedCanBeNamed(trust: Trust)
    requires trust == Trust(map[0 := Claims(SampleRequest(), 1, 0, 1)], map[1 := AbortClaims(SampleAbort(7, 2, 9), 1, 0, 1)])
    ensures var slots := [Decided(Record(SampleRequest(), 0, Acks(true, true), Some(5)), None)];
            && Lawful(SCOPE, slots) && NamesCompleted(slots, 9)
            && AbortOn(SCOPE, slots, trust, SampleAbort(7, 2, 9), 1, 0, GRANTED).0.Ok?
  {
    hide ValidBinding;
    SampleIsValid();
    var slots := [Decided(Record(SampleRequest(), 0, Acks(true, true), Some(5)), None)];
    assert Init(slots) == [];
    assert SlotOk(SCOPE, [], slots[0]);
    assert AbortRows(1, slots) == [];
    assert slots[0].record.request.id == 9;
    Burns(SCOPE, slots, trust, SampleAbort(7, 2, 9), 1, 0);
  }
}
