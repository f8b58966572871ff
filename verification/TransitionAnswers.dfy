/** What each operation of the transition journal does, stated by the slots, the request and
    the token alone, and what a completed transition tells about the run behind it. */
module TransitionAnswers {
  import opened Basics
  import opened Transitions
  import opened TransitionLaws

  // ---------------------------------------------------------------- the head

  /** The last decision that no abort cancelled. */
  predicate HeadAt(slots: seq<Slot>, k: nat) {
    k < |slots| && Live(slots[k]) && forall i :: k < i < |slots| ==> !Live(slots[i])
  }

  lemma {:induction false} HeadIsEffective(slots: seq<Slot>, k: nat)
    requires HeadAt(slots, k)
    ensures Effective(slots) == Some(slots[k].record)
  {
    if k < |slots| - 1 {
      HeadIsEffective(Init(slots), k);
    }
  }

  lemma HeadRevision(scope: Scope, slots: seq<Slot>, k: nat)
    requires Chained(scope, slots) && k < |slots| && slots[k].Decided?
    ensures slots[k].record.request.revision == scope.initial + k && ValidRequest(slots[k].record.request) && RecordOk(slots[k].record)
    ensures slots[k].record.request.binding == scope.binding
  {
    hide ValidRequest, RecordOk;
    ChainedAt(scope, slots, k);
  }

  /** No abort is stored at the head's revision. */
  lemma HeadNotAborted(scope: Scope, slots: seq<Slot>, k: nat)
    requires Chained(scope, slots) && HeadAt(slots, k)
    ensures FindAbort(AbortRows(scope.initial, slots), slots[k].record.request.revision).None?
  {
    HeadRevision(scope, slots, k);
    FindAbortAt(scope.initial, slots, scope.initial + k);
  }

  /** The last completed record is that of the last complete decision in force. */
  lemma {:induction false} LastCompletedAt(slots: seq<Slot>, r: Record)
    ensures LastCompleted(slots) == Some(r) <==>
              exists k: nat :: k < |slots| && LastComplete(slots, k) && slots[k].record == r
  {
    if slots != [] {
      var before, s := Init(slots), Last(slots);
      LastCompletedAt(before, r);
      if Live(s) && s.record.completion.Some? {
        assert LastComplete(slots, |slots| - 1);
      } else {
        assert forall k: nat :: k < |before| ==> (LastComplete(before, k) <==> LastComplete(slots, k));
        assert !LastComplete(slots, |slots| - 1);
        hide LastComplete;
        assert forall k: nat :: k < |slots| && LastComplete(slots, k) ==> k < |before| && slots[k] == before[k];
      }
    }
  }

  predicate LastComplete(slots: seq<Slot>, k: nat)
    requires k < |slots|
  {
    && Live(slots[k]) && slots[k].record.completion.Some?
    && forall i :: k < i < |slots| ==> !(Live(slots[i]) && slots[i].record.completion.Some?)
  }

  // ---------------------------------------------------------------- acknowledging

  /** Slot k with one participant's acknowledgement: its own flag is set, and the other's,
      the completion and every other slot are as they were. */
  predicate AckedAt(slots: seq<Slot>, n: seq<Slot>, k: nat, m: Participant) {
    && |n| == |slots| && k < |slots| && (forall i :: 0 <= i < |slots| && i != k ==> n[i] == slots[i])
    && slots[k].Decided? && n[k].Decided? && n[k].abort == slots[k].abort
    && var r, t := slots[k].record, n[k].record;
       && t.request == r.request && t.token == r.token && t.completion == r.completion
       && (m == r.request.primary ==> t.acks.primary && t.acks.secondary == r.acks.secondary)
       && (m == r.request.secondary ==> t.acks.secondary && t.acks.primary == r.acks.primary)
  }

  ghost predicate Acknowledged(slots: seq<Slot>, n: seq<Slot>, q: Request, m: Participant) {
    (m == q.primary || m == q.secondary) && exists k: nat :: HeadAt(slots, k) && slots[k].record.request == q && AckedAt(slots, n, k, m)
  }

  /** Whether a participant's acknowledgement is there. */
  predicate Flag(r: Record, m: Participant) {
    if m == r.request.primary then r.acks.primary else r.acks.secondary
  }

  /** An acknowledgement is taken exactly from a participant of the current decision, with
      evidence unless it is there already, and sets that participant's flag alone. */
  lemma AcknowledgeMeans(scope: Scope, slots: seq<Slot>, trust: Trust, d: Handle, m: Participant, policy: Policy)
    requires Lawful(scope, slots)
    ensures var (r, n) := AcknowledgeOn(scope, slots, trust, d, m, policy); var e := Effective(slots);
            && (r.Ok? <==> && Readable(scope, trust, slots) && e.Some? && e.value.request == d.request && e.value.token == d.token
                           && (m == d.request.primary || m == d.request.secondary)
                           && policy.continuity && (Flag(e.value, m) || (policy.applied && policy.continuityAgain)))
            && (r.Ok? ==> Acknowledged(slots, n, d.request, m))
            && (r.Err? || Flag(e.value, m) ==> n == slots)
  {
    hide Readable, NoRevival, AbortRows, FindAbort, ValidRequest, RecordOk, AckedAt;
    if Effective(slots).Some? {
      var k := EffectiveAt(slots);
      HeadNotAborted(scope, slots, k);
      HeadRevision(scope, slots, k);
      MembersDiffer(slots[k].record.request);
      OpenHeadIsLast(scope, slots);
      hide Chained, Effective;
      var (r, n) := AcknowledgeOn(scope, slots, trust, d, m, policy);
      if r.Ok? {
        AckedOne(slots, n, k, m);
      }
    }
  }

  lemma MembersDiffer(q: Request)
    requires ValidRequest(q)
    ensures q.primary != q.secondary
  {
  }

  lemma AckedOne(slots: seq<Slot>, n: seq<Slot>, k: nat, m: Participant)
    requires HeadAt(slots, k) && slots[k].record.request.primary != slots[k].record.request.secondary
    requires m == slots[k].record.request.primary || m == slots[k].record.request.secondary
    requires (Acked(slots[k].record, m) == slots[k].record && n == slots) || (k == |slots| - 1 && n == SetHead(slots, Acked(slots[k].record, m)))
    ensures AckedAt(slots, n, k, m)
  {
  }

  // ---------------------------------------------------------------- deciding

  /** No decision and no abort so far names the request id. */
  predicate UnusedId(slots: seq<Slot>, id: Id) {
    forall k :: 0 <= k < |slots| ==>
      && (slots[k].Decided? ==> slots[k].record.request.id != id)
      && (AbortOf(slots[k]).Some? ==> AbortOf(slots[k]).value.abort.requestId != id)
  }

  lemma {:induction false} UnusedIff(initial: nat, slots: seq<Slot>, id: Id)
    ensures UnusedId(slots, id) <==> id !in Ids(slots) && !CancelledId(AbortRows(initial, slots), id)
  {
    if slots != [] {
      var before, s := Init(slots), Last(slots);
      UnusedIff(initial, before, id);
      assert UnusedId(slots, id) <==> UnusedId(before, id) && UnusedId([s], id) by {
        assert slots == before + [s];
        assert forall k :: 0 <= k < |before| ==> slots[k] == before[k];
        assert slots[|before|] == s && [s][0] == s;
      }
      assert [s][0] == s;
      if AbortOf(s).Some? {
        CancelledMore(AbortRows(initial, before), AbortRow(initial + |slots| - 1, AbortOf(s).value), id);
      } else {
        assert AbortRows(initial, slots) == AbortRows(initial, before);
      }
    }
  }

  /** The request takes the next revision in the journal's scope; both participants are those
      of the last decision in force, which is complete, and start from its target. */
  ghost predicate Continues(scope: Scope, slots: seq<Slot>, q: Request) {
    && q.binding == scope.binding && q.revision == scope.initial + |slots|
    && forall k: nat :: HeadAt(slots, k) ==>
         var r := slots[k].record;
         && r.completion.Some?
         && q.primary.oldBase == q.secondary.oldBase == Some(r.request.primary.target)
         && q.primary.member == r.request.primary.member && q.primary.generation == r.request.primary.generation
         && q.secondary.member == r.request.secondary.member && q.secondary.generation == r.request.secondary.generation
  }

  lemma ContinuesIff(scope: Scope, slots: seq<Slot>, q: Request)
    requires Chained(scope, slots) && UnusedId(slots, q.id)
    ensures Continues(scope, slots, q) <==> Chains(scope, Effective(slots), scope.initial + |slots|, q)
  {
    if Effective(slots).Some? {
      var k := EffectiveAt(slots);
      assert HeadAt(slots, k);
    }
    forall k: nat | HeadAt(slots, k)
      ensures Effective(slots) == Some(slots[k].record)
    {
      HeadIsEffective(slots, k);
    }
  }

  /** The trusted keys signed the token for this request, and it may be used now. */
  predicate SignedFor(trust: Trust, token: Token, q: Request, now: nat) {
    token in trust.transitions && trust.transitions[token].request == q && trust.transitions[token].notBefore <= now < trust.transitions[token].expires
  }

  /** A request is decided exactly if it is valid, new, continues the journal, is signed for
      the present time and admitted by the policy; it then takes the next revision with
      nothing acknowledged. Repeated with its own token it is answered without effect. */
  lemma DecideMeans(scope: Scope, slots: seq<Slot>, trust: Trust, q: Request, token: Token, now: nat, policy: Policy)
    requires Lawful(scope, slots)
    ensures var (r, n) := DecideOn(scope, slots, trust, q, token, now, policy); var e := Effective(slots);
            && (n != slots <==> && Readable(scope, trust, slots) && ValidRequest(q) && UnusedId(slots, q.id) && Continues(scope, slots, q)
                                && SignedFor(trust, token, q, now) && policy.continuity && policy.prepared && policy.continuityAgain)
            && (n != slots ==> n == slots + [Decided(Record(q, token, Acks(false, false), None), None)])
            && (n != slots ==> r == Ok(Handle(q, token, trust.transitions[token].certificate, Acks(false, false), None)))
            && (r.Ok? <==> n != slots || (&& Readable(scope, trust, slots) && ValidRequest(q) && policy.continuity
                                           && e.Some? && e.value.request == q && e.value.token == token))
  {
    hide Readable, NoRevival, AbortRows, FindAbort, ValidRequest, UnusedId, Continues, Chains, Ids, CancelledId;
    UnusedIff(scope.initial, slots, q.id);
    if Effective(slots).Some? {
      var k := EffectiveAt(slots);
      HeadIsUsed(slots, k);
    }
    if UnusedId(slots, q.id) {
      ContinuesIff(scope, slots, q);
      FindAbortAt(scope.initial, slots, scope.initial + |slots|);
      NextRevision(scope, slots, q);
    }
  }

  lemma HeadIsUsed(slots: seq<Slot>, k: nat)
    requires k < |slots| && slots[k].Decided?
    ensures !UnusedId(slots, slots[k].record.request.id)
  {
  }

  lemma NextRevision(scope: Scope, slots: seq<Slot>, q: Request)
    ensures Continues(scope, slots, q) ==> q.revision == scope.initial + |slots|
  {
  }

  /** Every decision of a lawful journal is for two different nodes that move to one target
      beyond the anchor under one plan, in the journal's scope and at its own revision. */
  lemma DecidedIsSound(scope: Scope, slots: seq<Slot>, k: nat)
    requires Lawful(scope, slots) && k < |slots| && slots[k].Decided?
    ensures var q := slots[k].record.request;
            && q.format == 1 && q.id != 0 && q.binding == scope.binding && 0 < q.revision == scope.initial + k <= MAX_NUMBER
            && q.primary.member != q.secondary.member && q.primary.generation != q.secondary.generation
            && q.primary.plan == q.secondary.plan != 0 && q.primary.target == q.secondary.target
            && q.binding.anchor.sequence < q.primary.target.sequence <= MAX_NUMBER && q.primary.target.digest != 0
            && 0 !in {q.primary.member, q.secondary.member, q.primary.generation, q.secondary.generation, q.primary.publication, q.secondary.publication}
            && (q.primary.oldBase.Some? ==> q.primary.oldBase.value.sequence < q.primary.target.sequence)
            && (q.secondary.oldBase.Some? ==> q.secondary.oldBase.value.sequence < q.secondary.target.sequence)
  {
    hide NoRevival, Chained, RecordOk, ValidBinding;
    HeadRevision(scope, slots, k);
  }

  // ---------------------------------------------------------------- completing

  /** A completion is recorded exactly for the open decision of the handle once both
      participants acknowledged it, and changes nothing else; repeated with the same id it is
      answered without effect. */
  lemma CompleteMeans(scope: Scope, slots: seq<Slot>, trust: Trust, d: Handle, id: Id, policy: Policy)
    requires Lawful(scope, slots)
    ensures var (r, n) := CompleteOn(scope, slots, trust, d, id, policy); var e := Effective(slots);
            && (r.Ok? <==> && Readable(scope, trust, slots) && id != 0 && policy.continuity
                           && e.Some? && e.value.request == d.request && e.value.token == d.token && e.value.acks == Acks(true, true)
                           && (e.value.completion.None? || e.value.completion == Some(id)))
            && (r.Err? || e.value.completion.Some? ==> n == slots)
            && (r.Ok? && e.value.completion.None? ==>
                  slots != [] && n == slots[..|slots| - 1] + [Decided(Record(d.request, d.token, Acks(true, true), Some(id)), None)])
  {
    hide Readable, NoRevival, AbortRows, FindAbort, ValidRequest, RecordOk;
    if Effective(slots).Some? {
      var k := EffectiveAt(slots);
      HeadNotAborted(scope, slots, k);
      OpenHeadIsLast(scope, slots);
    }
  }

  // ---------------------------------------------------------------- cancelling

  /** The abort is signed, and may be used now. */
  predicate SignedAbort(trust: Trust, token: Token, a: Abort, now: nat) {
    token in trust.aborts && trust.aborts[token].abort == a && trust.aborts[token].notBefore <= now < trust.aborts[token].expires
  }

  /** The abort names the open last decision exactly, which not both have acknowledged. */
  predicate NamesOpen(scope: Scope, slots: seq<Slot>, a: Abort) {
    && a.decided && slots != [] && Open(Last(slots)) && Last(slots).record.acks != Acks(true, true)
    && a.abortedRevision == scope.initial + |slots| - 1
    && a.requestId == Last(slots).record.request.id && a.request == DigestOf(Last(slots).record.request)
  }

  /** The abort takes the next revision while nothing is open. */
  predicate TakesNext(scope: Scope, slots: seq<Slot>, a: Abort) {
    !a.decided && a.abortedRevision == scope.initial + |slots| && (slots != [] ==> !Open(Last(slots)))
  }

  /** The shape of an abort is right exactly in these two cases, and then its revision holds
      no abort yet. */
  lemma ShapeIff(scope: Scope, slots: seq<Slot>, a: Abort)
    requires Chained(scope, slots)
    ensures AbortShape(scope, slots, a).None? <==> NamesOpen(scope, slots, a) || TakesNext(scope, slots, a)
    ensures NamesOpen(scope, slots, a) || TakesNext(scope, slots, a) ==> FindAbort(AbortRows(scope.initial, slots), a.abortedRevision).None?
  {
    hide ValidRequest, FindAbort, AbortRows, RecordOk;
    FindAbortAt(scope.initial, slots, a.abortedRevision);
    OpenHeadIsLast(scope, slots);
    if slots != [] && Open(Last(slots)) {
      HeadIsEffective(slots, |slots| - 1);
      HeadRevision(scope, slots, |slots| - 1);
    }
    if Effective(slots).Some? {
      var k := EffectiveAt(slots);
      HeadRevision(scope, slots, k);
    }
    hide Chained, Effective;
  }

  /** An abort is recorded exactly if it is valid, signed for the present time, admitted by
      the policy, within the row limit, and names the open decision or takes the next
      revision; it cancels that decision or spends that revision and changes nothing else.
      Repeated with its own token it is answered without effect. */
  lemma AbortMeans(scope: Scope, slots: seq<Slot>, trust: Trust, a: Abort, token: Token, now: nat, policy: Policy)
    requires Lawful(scope, slots)
    ensures var (r, n) := AbortOn(scope, slots, trust, a, token, now, policy);
            var lasting := Effective(slots).Some? ==> policy.continuity && policy.continuityAgain;
            var known := FindAbort(AbortRows(scope.initial, slots), a.abortedRevision);
            && (n != slots <==> && Readable(scope, trust, slots) && ValidAbort(a) && a.binding == scope.binding && SignedAbort(trust, token, a, now)
                                && policy.abortApplicable && lasting && |AbortRows(scope.initial, slots)| < MAX_ABORT_ROWS
                                && (NamesOpen(scope, slots, a) || TakesNext(scope, slots, a)))
            && (n != slots ==> r == Ok(AbortRecord(2, a, token, trust.aborts[token].certificate)))
            && (n != slots && a.decided ==> slots != [] && Last(slots).Decided? && n == Init(slots) + [Decided(Last(slots).record, Some(r.value))])
            && (n != slots && !a.decided ==> n == slots + [Burned(r.value)])
            && (r.Ok? <==> n != slots || (&& Readable(scope, trust, slots) && ValidAbort(a) && a.binding == scope.binding && lasting
                                           && known.Some? && known.value.abort == a && known.value.token == token))
            && (r.Ok? && n == slots ==> known == Some(r.value))
  {
    hide Readable, NoRevival, AbortRows, FindAbort, ValidAbort, Effective, AbortShape;
    ShapeIff(scope, slots, a);
    hide Chained;
    var (r, n) := AbortOn(scope, slots, trust, a, token, now, policy);
    if AbortShape(scope, slots, a).None? && r.Ok? && FindAbort(AbortRows(scope.initial, slots), a.abortedRevision).None? {
      CancelledDiffers(scope, slots, r.value);
    }
  }

  lemma CancelledDiffers(scope: Scope, slots: seq<Slot>, x: AbortRecord)
    requires NamesOpen(scope, slots, x.abort) || TakesNext(scope, slots, x.abort)
    ensures Cancelled(scope, slots, x) != slots
    ensures Cancelled(scope, slots, x) == if x.abort.decided then Init(slots) + [Decided(Last(slots).record, Some(x))] else slots + [Burned(x)]
  {
    var n := Cancelled(scope, slots, x);
    if x.abort.decided {
      assert n[|slots| - 1] != slots[|slots| - 1];
    } else {
      assert |n| == |slots| + 1;
    }
  }

  // ---------------------------------------------------------------- a whole transition

  /** A valid new request is carried through: decided, acknowledged by both participants in
      either order and completed, it takes one revision and is the head in force. */
  lemma TransitionCompletes(scope: Scope, slots: seq<Slot>, trust: Trust, q: Request, token: Token, now: nat, d: Handle, id: Id, primaryFirst: bool)
    requires Lawful(scope, slots) && Readable(scope, trust, slots) && ValidRequest(q) && UnusedId(slots, q.id) && Continues(scope, slots, q)
    requires SignedFor(trust, token, q, now) && d.request == q && d.token == token && id != 0
    ensures var (m, o) := if primaryFirst then (q.primary, q.secondary) else (q.secondary, q.primary);
            Run(scope, trust, slots, [Op.Decide(q, token, now, GRANTED), Op.Acknowledge(d, m, GRANTED), Op.Acknowledge(d, o, GRANTED), Op.Complete(d, id, GRANTED)])
              == slots + [Decided(Record(q, token, Acks(true, true), Some(id)), None)]
  {
    hide Lawful, Readable, DecideOn, AcknowledgeOn, CompleteOn, ValidRequest, UnusedId, Continues, Run, After;
    var (m, o) := if primaryFirst then (q.primary, q.secondary) else (q.secondary, q.primary);
    MembersDiffer(q);
    DecideMeans(scope, slots, trust, q, token, now, GRANTED);
    DecideKeeps(scope, slots, trust, q, token, now, GRANTED);
    var first := Acks(primaryFirst, !primaryFirst);
    AcknowledgeOpen(scope, slots, trust, Record(q, token, Acks(false, false), None), d, m);
    AcknowledgeOpen(scope, slots, trust, Record(q, token, first, None), d, o);
    CompleteOpen(scope, slots, trust, Record(q, token, Acks(true, true), None), d, id);
    FourSteps(scope, trust, slots, Op.Decide(q, token, now, GRANTED), Op.Acknowledge(d, m, GRANTED), Op.Acknowledge(d, o, GRANTED), Op.Complete(d, id, GRANTED));
    AfterIs(scope, trust, slots, q, token, now, d, m, id);
    AfterIs(scope, trust, slots + [Decided(Record(q, token, Acks(false, false), None), None)], q, token, now, d, m, id);
    AfterIs(scope, trust, slots + [Decided(Record(q, token, first, None), None)], q, token, now, d, o, id);
    AfterIs(scope, trust, slots + [Decided(Record(q, token, Acks(true, true), None), None)], q, token, now, d, o, id);
  }

  lemma FourSteps(scope: Scope, trust: Trust, slots: seq<Slot>, a: Op, b: Op, c: Op, e: Op)
    ensures Run(scope, trust, slots, [a, b, c, e]) ==
              After(scope, trust, After(scope, trust, After(scope, trust, After(scope, trust, slots, a), b), c), e)
  {
    hide After, Run;
    var x := After(scope, trust, slots, a);
    var y := After(scope, trust, x, b);
    var z := After(scope, trust, y, c);
    FirstStep(scope, trust, slots, a, [b, c, e]);
    FirstStep(scope, trust, x, b, [c, e]);
    FirstStep(scope, trust, y, c, [e]);
    FirstStep(scope, trust, z, e, []);
    assert [a] + [b, c, e] == [a, b, c, e] && [b] + [c, e] == [b, c, e] && [c] + [e] == [c, e] && [e] + [] == [e];
  }

  lemma FirstStep(scope: Scope, trust: Trust, slots: seq<Slot>, op: Op, ops: seq<Op>)
    ensures Run(scope, trust, slots, [op] + ops) == Run(scope, trust, After(scope, trust, slots, op), ops)
    ensures Run(scope, trust, slots, []) == slots && Run(scope, trust, After(scope, trust, slots, op), []) == After(scope, trust, slots, op)
  {
    hide After;
    assert ([op] + ops)[1..] == ops;
  }

  lemma AfterIs(scope: Scope, trust: Trust, slots: seq<Slot>, q: Request, token: Token, now: nat, d: Handle, m: Participant, id: Id)
    ensures After(scope, trust, slots, Op.Decide(q, token, now, GRANTED)) == DecideOn(scope, slots, trust, q, token, now, GRANTED).1
    ensures After(scope, trust, slots, Op.Acknowledge(d, m, GRANTED)) == AcknowledgeOn(scope, slots, trust, d, m, GRANTED).1
    ensures After(scope, trust, slots, Op.Complete(d, id, GRANTED)) == CompleteOn(scope, slots, trust, d, id, GRANTED).1
  {
    hide DecideOn, AcknowledgeOn, CompleteOn;
  }

  /** An acknowledgement of the open last decision. */
  lemma AcknowledgeOpen(scope: Scope, slots: seq<Slot>, trust: Trust, r: Record, d: Handle, m: Participant)
    requires var open := slots + [Decided(r, None)]; Lawful(scope, open) && Readable(scope, trust, open)
    requires r.completion.None? && d.request == r.request && d.token == r.token && r.request.primary != r.request.secondary
    requires m == r.request.primary || m == r.request.secondary
    ensures var n := AcknowledgeOn(scope, slots + [Decided(r, None)], trust, d, m, GRANTED).1;
            && n == slots + [Decided(r.(acks := if m == r.request.primary then r.acks.(primary := true) else r.acks.(secondary := true)), None)]
            && Lawful(scope, n) && Readable(scope, trust, n)
  {
    hide Lawful, Readable, AcknowledgeOn, Effective;
    var open := slots + [Decided(r, None)];
    Snoc(slots, Decided(r, None));
    HeadIsEffective(open, |slots|);
    AcknowledgeMeans(scope, open, trust, d, m, GRANTED);
    AcknowledgeKeeps(scope, open, trust, d, m, GRANTED);
    var n := AcknowledgeOn(scope, open, trust, d, m, GRANTED).1;
    var k: nat :| HeadAt(open, k) && open[k].record.request == r.request && AckedAt(open, n, k, m);
    assert k == |slots|;
    assert n == slots + [n[|slots|]] by {
      assert forall i :: 0 <= i < |slots| ==> n[i] == open[i] == slots[i];
    }
  }

  lemma CompleteOpen(scope: Scope, slots: seq<Slot>, trust: Trust, r: Record, d: Handle, id: Id)
    requires var open := slots + [Decided(r, None)]; Lawful(scope, open) && Readable(scope, trust, open)
    requires r.completion.None? && r.acks == Acks(true, true) && d.request == r.request && d.token == r.token && id != 0
    ensures CompleteOn(scope, slots + [Decided(r, None)], trust, d, id, GRANTED).1 == slots + [Decided(r.(completion := Some(id)), None)]
  {
    hide Lawful, Readable, CompleteOn, Effective;
    var open := slots + [Decided(r, None)];
    HeadIsEffective(open, |slots|);
    CompleteMeans(scope, open, trust, d, id, GRANTED);
    assert open[..|open| - 1] == slots;
  }

  // ---------------------------------------------------------------- what the run behind a slot held

  /** Some operation of a run decided the request under the token. */
  ghost predicate DecidedBy(ops: seq<Op>, q: Request, token: Token) {
    exists i :: 0 <= i < |ops| && ops[i].Decide? && ops[i].request == q && ops[i].token == token
  }

  /** Some operation of a run was the participant's acknowledgement of the request. */
  ghost predicate AckedBy(ops: seq<Op>, q: Request, m: Participant) {
    exists i :: 0 <= i < |ops| && ops[i].Acknowledge? && ops[i].decision.request == q && ops[i].member == m
  }

  ghost predicate CompletedBy(ops: seq<Op>, q: Request, id: Id) {
    exists i :: 0 <= i < |ops| && ops[i].Complete? && ops[i].decision.request == q && ops[i].id == id
  }

  ghost predicate CancelledBy(ops: seq<Op>, a: AbortRecord) {
    exists i :: 0 <= i < |ops| && ops[i].Cancel? && ops[i].abort == a.abort && ops[i].token == a.token
  }

  /** Everything a slot says was done by some operation of the run. */
  ghost predicate Vouched(s: Slot, ops: seq<Op>) {
    && (s.Decided? ==>
          var r := s.record;
          && DecidedBy(ops, r.request, r.token)
          && (r.acks.primary ==> AckedBy(ops, r.request, r.request.primary))
          && (r.acks.secondary ==> AckedBy(ops, r.request, r.request.secondary))
          && (r.completion.Some? ==> CompletedBy(ops, r.request, r.completion.value)))
    && (AbortOf(s).Some? ==> CancelledBy(ops, AbortOf(s).value))
  }

  ghost predicate AllVouched(slots: seq<Slot>, ops: seq<Op>) {
    forall k :: 0 <= k < |slots| ==> Vouched(slots[k], ops)
  }

  lemma VouchedMore(s: Slot, ops: seq<Op>, op: Op)
    requires Vouched(s, ops)
    ensures Vouched(s, ops + [op])
  {
    var all := ops + [op];
    assert forall i :: 0 <= i < |ops| ==> all[i] == ops[i];
  }

  /** One operation vouches for whatever it changes. */
  lemma AfterVouched(scope: Scope, trust: Trust, slots: seq<Slot>, ops: seq<Op>, op: Op)
    requires Lawful(scope, slots) && AllVouched(slots, ops)
    ensures AllVouched(After(scope, trust, slots, op), ops + [op])
  {
    hide Lawful, Vouched, DecideOn, AcknowledgeOn, CompleteOn, AbortOn, Readable, Effective, ValidRequest, ValidAbort, AbortRows, FindAbort;
    var n, all := After(scope, trust, slots, op), ops + [op];
    forall k | 0 <= k < |slots|
      ensures Vouched(slots[k], all)
    {
      VouchedMore(slots[k], ops, op);
    }
    if n != slots {
      match op
      case Decide(q, token, now, policy) =>
        DecideMeans(scope, slots, trust, q, token, now, policy);
        NewlyDecided(all, q, token);
      case Acknowledge(d, m, policy) =>
        AcknowledgeMeans(scope, slots, trust, d, m, policy);
        var k: nat :| HeadAt(slots, k) && slots[k].record.request == d.request && AckedAt(slots, n, k, m);
        NewlyAcked(slots, n, k, m, all);
      case Complete(d, id, policy) =>
        CompleteMeans(scope, slots, trust, d, id, policy);
        OpenHeadIs(scope, slots);
        NewlyCompleted(Last(slots), all, id);
      case Cancel(a, token, now, policy) =>
        AbortMeans(scope, slots, trust, a, token, now, policy);
        var r := AbortOn(scope, slots, trust, a, token, now, policy).0;
        NewlyCancelled(slots, r.value, all);
    }
  }

  lemma OpenHeadIs(scope: Scope, slots: seq<Slot>)
    requires Lawful(scope, slots)
    ensures Effective(slots).Some? && Effective(slots).value.completion.None? ==> slots != [] && Last(slots).Decided? && Last(slots).record == Effective(slots).value
  {
    hide NoRevival;
    OpenHeadIsLast(scope, slots);
  }

  lemma NewlyDecided(all: seq<Op>, q: Request, token: Token)
    requires all != [] && all[|all| - 1].Decide? && all[|all| - 1].request == q && all[|all| - 1].token == token
    ensures Vouched(Decided(Record(q, token, Acks(false, false), None), None), all)
  {
  }

  lemma NewlyAcked(slots: seq<Slot>, n: seq<Slot>, k: nat, m: Participant, all: seq<Op>)
    requires HeadAt(slots, k) && AckedAt(slots, n, k, m) && Vouched(slots[k], all)
    requires all != [] && all[|all| - 1].Acknowledge? && all[|all| - 1].decision.request == slots[k].record.request && all[|all| - 1].member == m
    requires m == slots[k].record.request.primary || m == slots[k].record.request.secondary
    ensures Vouched(n[k], all)
  {
    assert AckedBy(all, slots[k].record.request, m);
  }

  lemma NewlyCompleted(s: Slot, all: seq<Op>, id: Id)
    requires s.Decided? && Vouched(s, all)
    requires all != [] && all[|all| - 1].Complete? && all[|all| - 1].decision.request == s.record.request && all[|all| - 1].id == id
    ensures Vouched(Decided(s.record.(completion := Some(id)), None), all)
  {
  }

  lemma NewlyCancelled(slots: seq<Slot>, x: AbortRecord, all: seq<Op>)
    requires all != [] && all[|all| - 1].Cancel? && all[|all| - 1].abort == x.abort && all[|all| - 1].token == x.token
    ensures Vouched(Burned(x), all)
    ensures slots != [] && Last(slots).Decided? && Vouched(Last(slots), all) ==> Vouched(Decided(Last(slots).record, Some(x)), all)
  {
    assert CancelledBy(all, x);
  }

  lemma {:induction false} RunVouched(scope: Scope, trust: Trust, slots: seq<Slot>, done: seq<Op>, ops: seq<Op>)
    requires Lawful(scope, slots) && AllVouched(slots, done)
    ensures AllVouched(Run(scope, trust, slots, ops), done + ops)
    decreases |ops|
  {
    hide Lawful, AllVouched, After;
    if ops == [] {
      assert done + ops == done;
    } else {
      AfterVouched(scope, trust, slots, done, ops[0]);
      AfterKeeps(scope, trust, slots, ops[0]);
      RunVouched(scope, trust, After(scope, trust, slots, ops[0]), done + [ops[0]], ops[1..]);
      assert done + [ops[0]] + ops[1..] == done + ops;
    }
  }

  /** Over every run of a new journal: a completed transition was decided, was acknowledged by
      its primary and by its secondary, and was completed, each by an operation of the run. */
  lemma CompletionIsEarned(scope: Scope, trust: Trust, ops: seq<Op>, k: nat)
    requires var n := Run(scope, trust, [], ops); k < |n| && n[k].Decided? && n[k].record.completion.Some?
    ensures var r := Run(scope, trust, [], ops)[k].record;
            && DecidedBy(ops, r.request, r.token) && CompletedBy(ops, r.request, r.completion.value)
            && AckedBy(ops, r.request, r.request.primary) && AckedBy(ops, r.request, r.request.secondary)
  {
    hide NoRevival, Chained, DecidedBy, AckedBy, CompletedBy, CancelledBy, Run;
    StartIsLawful(scope, trust);
    assert AllVouched([], []);
    RunVouched(scope, trust, [], [], ops);
    EveryRunIsLawful(scope, trust, [], ops);
    var n := Run(scope, trust, [], ops);
    HeadRevision(scope, n, k);
    assert [] + ops == ops;
    assert Vouched(n[k], ops);
  }

  /** Over every run of a new journal each slot says only what operations of the run did. */
  lemma SlotsAreEarned(scope: Scope, trust: Trust, ops: seq<Op>)
    ensures AllVouched(Run(scope, trust, [], ops), ops)
  {
    hide Lawful, Run;
    StartIsLawful(scope, trust);
    assert AllVouched([], []);
    RunVouched(scope, trust, [], [], ops);
    assert [] + ops == ops;
  }
}
