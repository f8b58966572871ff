/** The authority's transition journal as a value. Revisions are handed out one by one;
    each is taken by a decided transition, which may later be aborted, or by the abort of
    an attempt that was never decided. */
module Transitions {
  import opened Basics

  /** A 32-byte identifier; 0 stands for the all-zero one. */
  type Id = nat
  type Token = nat

  const MAX_NUMBER: nat := 0x7fff_ffff_ffff_ffff
  const MAX_TEXT: nat := 512
  const MAX_ABORT_ROWS: nat := 4096

  datatype Point = Point(sequence: nat, digest: Id)
  datatype Participant = Participant(member: Id, generation: Id, oldBase: Option<Point>, target: Point, plan: Id, publication: Id)

  /** The fields every signed request shares with the journal's scope. */
  datatype Binding = Binding(install: string, region: string, scope: Id, schema: Id, membership: Id, anchor: Point, authority: Id)
  datatype Scope = Scope(binding: Binding, initial: nat)
  datatype Request = Request(format: nat, id: Id, revision: nat, binding: Binding, primary: Participant, secondary: Participant)

  /** An ideal request digest, or bytes that are no request's digest. */
  datatype RequestDigest = DigestOf(request: Request) | Foreign(bytes: Id)

  datatype Abort = Abort(format: nat, id: Id, revision: nat, binding: Binding, request: RequestDigest, requestId: Id, abortedRevision: nat, decided: bool)

  datatype Acks = Acks(primary: bool, secondary: bool)
  datatype Record = Record(request: Request, token: Token, acks: Acks, completion: Option<Id>)
  datatype AbortRecord = AbortRecord(format: nat, abort: Abort, token: Token, certificate: Id)

  /** What the trusted keys vouch for: the content of every token they signed. */
  datatype Claims = Claims(request: Request, certificate: Id, notBefore: nat, expires: nat)
  datatype AbortClaims = AbortClaims(abort: Abort, certificate: Id, notBefore: nat, expires: nat)
  datatype Trust = Trust(transitions: map<Token, Claims>, aborts: map<Token, AbortClaims>)

  datatype Fault =
    | InvalidRequest | Unreadable | PolicyRefused | Conflict | RevisionAborted | DuplicateRequest | ChainMismatch
    | TokenRefused | Missing | NotCurrent | MemberMismatch | EvidenceMissing | ZeroCompletion | CompletionConflict
    | ScopeMismatch | TargetMismatch | OpenDecision | RowLimit | HeadMismatch | FormatMissing

  type Answer<T> = Result<T, Fault>

  /** What one revision was used for. */
  datatype Slot = Decided(record: Record, abort: Option<AbortRecord>) | Burned(burnt: AbortRecord)

  // ---------------------------------------------------------------- validity of requests

  predicate ValidText(s: string) {
    |s| <= MAX_TEXT && exists i :: 0 <= i < |s| && s[i] !in " \t\n\r"
  }

  predicate ValidPoint(p: Point) {
    p.sequence <= MAX_NUMBER && p.digest != 0
  }

  predicate ValidBinding(b: Binding) {
    ValidText(b.install) && ValidText(b.region) && b.scope != 0 && b.schema != 0 && b.membership != 0 && b.authority != 0 && ValidPoint(b.anchor)
  }

  predicate ValidMember(m: Participant) {
    && m.member != 0 && m.generation != 0 && m.plan != 0 && m.publication != 0
    && m.target.sequence > 0 && ValidPoint(m.target)
    && (m.oldBase.Some? ==> ValidPoint(m.oldBase.value) && m.oldBase.value.sequence < m.target.sequence)
  }

  predicate ValidRequest(q: Request) {
    && q.format == 1 && q.id != 0 && 0 < q.revision <= MAX_NUMBER && ValidBinding(q.binding)
    && ValidMember(q.primary) && ValidMember(q.secondary)
    && q.primary.member != q.secondary.member && q.primary.generation != q.secondary.generation
    && q.primary.plan == q.secondary.plan && q.primary.target == q.secondary.target
    && q.primary.target.sequence > q.binding.anchor.sequence
  }

  predicate ValidAbort(a: Abort) {
    && a.format == 2 && a.id != 0 && 0 < a.revision <= MAX_NUMBER && ValidBinding(a.binding)
    && a.request != Foreign(0) && a.requestId != 0 && a.revision == a.abortedRevision
  }

  predicate ValidScope(s: Scope) {
    ValidBinding(s.binding) && 0 < s.initial <= MAX_NUMBER
  }

  // ---------------------------------------------------------------- tokens

  /** The certificate a token carries for a request, whatever the time. */
  function Certificate(token: Token, trust: Trust, q: Request): Option<Id> {
    if ValidRequest(q) && token in trust.transitions && trust.transitions[token].request == q
    then Some(trust.transitions[token].certificate) else None
  }

  /** The same while the token may be used to issue. */
  function Issuable(token: Token, trust: Trust, q: Request, now: nat): Option<Id> {
    if Certificate(token, trust, q).Some? && trust.transitions[token].notBefore <= now < trust.transitions[token].expires
    then Certificate(token, trust, q) else None
  }

  function AbortCertificate(token: Token, trust: Trust, a: Abort): Option<Id> {
    if ValidAbort(a) && token in trust.aborts && trust.aborts[token].abort == a
    then Some(trust.aborts[token].certificate) else None
  }

  function AbortIssuable(token: Token, trust: Trust, a: Abort, now: nat): Option<Id> {
    if AbortCertificate(token, trust, a).Some? && trust.aborts[token].notBefore <= now < trust.aborts[token].expires
    then AbortCertificate(token, trust, a) else None
  }

  // ---------------------------------------------------------------- lineage

  function Init(slots: seq<Slot>): seq<Slot>
    requires slots != []
  {
    slots[..|slots| - 1]
  }

  function Last(slots: seq<Slot>): Slot
    requires slots != []
  {
    slots[|slots| - 1]
  }

  predicate Live(s: Slot) {
    s.Decided? && s.abort.None?
  }

  /** The effective head: the last decided record that no abort cancelled. */
  function Effective(slots: seq<Slot>): Option<Record> {
    if slots == [] then None
    else if Live(Last(slots)) then Some(Last(slots).record)
    else Effective(Init(slots))
  }

  function LastCompleted(slots: seq<Slot>): Option<Record> {
    if slots == [] then None
    else if Live(Last(slots)) && Last(slots).record.completion.Some? then Some(Last(slots).record)
    else LastCompleted(Init(slots))
  }

  /** Every request id that was ever decided. */
  function Ids(slots: seq<Slot>): set<Id> {
    if slots == [] then {}
    else Ids(Init(slots)) + if Last(slots).Decided? then {Last(slots).record.request.id} else {}
  }

  function AbortOf(s: Slot): Option<AbortRecord> {
    match s
    case Decided(_, a) => a
    case Burned(a) => Some(a)
  }

  predicate Done(e: Option<Record>) {
    e.Some? ==> e.value.completion.Some?
  }

  /** A new request continues the effective head: the head is complete, both participants
      start from its target, and the membership is unchanged. */
  predicate Chains(scope: Scope, e: Option<Record>, revision: nat, q: Request) {
    && q.binding == scope.binding && q.revision == revision
    && (e.Some? ==>
          && e.value.completion.Some? && q.id != e.value.request.id
          && q.primary.oldBase == Some(e.value.request.primary.target) && q.secondary.oldBase == Some(e.value.request.primary.target)
          && q.primary.member == e.value.request.primary.member && q.primary.generation == e.value.request.primary.generation
          && q.secondary.member == e.value.request.secondary.member && q.secondary.generation == e.value.request.secondary.generation)
  }

  predicate RecordOk(r: Record) {
    r.completion.Some? ==> r.completion.value != 0 && r.acks == Acks(true, true)
  }

  /** An abort names the decided record it cancels, which nobody completed and not both
      participants acknowledged. */
  predicate Cancels(a: Abort, r: Record) {
    && a.decided && r.completion.None? && r.acks != Acks(true, true)
    && a.abortedRevision == r.request.revision && a.requestId == r.request.id && a.request == DigestOf(r.request)
  }

  predicate AbortOk(scope: Scope, revision: nat, a: AbortRecord) {
    a.format == 2 && ValidAbort(a.abort) && a.abort.binding == scope.binding && a.abort.abortedRevision == revision
  }

  /** One revision's use is right after what came before it. */
  predicate SlotOk(scope: Scope, before: seq<Slot>, s: Slot) {
    var revision := scope.initial + |before|;
    match s
    case Decided(r, a) =>
      && ValidRequest(r.request) && RecordOk(r) && r.request.id !in Ids(before)
      && Chains(scope, Effective(before), revision, r.request)
      && (a.Some? ==> AbortOk(scope, revision, a.value) && Cancels(a.value.abort, r))
    case Burned(a) =>
      AbortOk(scope, revision, a) && !a.abort.decided && Done(Effective(before))
  }

  predicate Chained(scope: Scope, slots: seq<Slot>) {
    slots == [] || (Chained(scope, Init(slots)) && SlotOk(scope, Init(slots), Last(slots)))
  }

  // ---------------------------------------------------------------- rows

  datatype Row = Row(revision: nat, record: Record)
  datatype AbortRow = AbortRow(revision: nat, record: AbortRecord)

  function HistoryRows(initial: nat, slots: seq<Slot>): seq<Row> {
    if slots == [] then []
    else HistoryRows(initial, Init(slots)) + if Last(slots).Decided? then [Row(initial + |slots| - 1, Last(slots).record)] else []
  }

  function AbortRows(initial: nat, slots: seq<Slot>): seq<AbortRow> {
    if slots == [] then []
    else AbortRows(initial, Init(slots)) + if AbortOf(Last(slots)).Some? then [AbortRow(initial + |slots| - 1, AbortOf(Last(slots)).value)] else []
  }

  /** A stored abort that a replay accepts on its own. */
  predicate AbortRowOk(scope: Scope, trust: Trust, x: AbortRow) {
    AbortOk(scope, x.revision, x.record) && AbortCertificate(x.record.token, trust, x.record.abort) == Some(x.record.certificate)
  }

  predicate Differ(x: AbortRow, y: AbortRow) {
    x.record.abort.id != y.record.abort.id && x.record.abort.requestId != y.record.abort.requestId
  }

  /** The abort table as a replay wants it: bounded, every row good, no abort id and no
      cancelled request id used twice. */
  predicate AbortsOk(scope: Scope, trust: Trust, rows: seq<AbortRow>) {
    && |rows| <= MAX_ABORT_ROWS
    && (forall i :: 0 <= i < |rows| ==> AbortRowOk(scope, trust, rows[i]))
    && (forall i, j :: 0 <= i < j < |rows| ==> Differ(rows[i], rows[j]))
  }

  predicate TokensOk(trust: Trust, slots: seq<Slot>) {
    forall i :: 0 <= i < |slots| && slots[i].Decided? ==> Certificate(slots[i].record.token, trust, slots[i].record.request).Some?
  }

  /** A replay accepts the stored state. */
  predicate Readable(scope: Scope, trust: Trust, slots: seq<Slot>) {
    Chained(scope, slots) && TokensOk(trust, slots) && AbortsOk(scope, trust, AbortRows(scope.initial, slots))
  }

  // ---------------------------------------------------------------- rows and slots

  lemma {:induction false} ChainedAt(scope: Scope, slots: seq<Slot>, k: nat)
    requires Chained(scope, slots) && k < |slots|
    ensures Chained(scope, slots[..k]) && SlotOk(scope, slots[..k], slots[k])
  {
    if k < |slots| - 1 {
      ChainedAt(scope, Init(slots), k);
      assert Init(slots)[..k] == slots[..k];
    }
  }

  /** Rows of a prefix come first; the others belong to later revisions. */
  lemma {:induction false} PrefixRows(initial: nat, slots: seq<Slot>, k: nat)
    requires k <= |slots|
    ensures HistoryRows(initial, slots[..k]) <= HistoryRows(initial, slots)
    ensures AbortRows(initial, slots[..k]) <= AbortRows(initial, slots)
    ensures forall x :: |HistoryRows(initial, slots[..k])| <= x < |HistoryRows(initial, slots)| ==> HistoryRows(initial, slots)[x].revision >= initial + k
    ensures forall x :: |AbortRows(initial, slots[..k])| <= x < |AbortRows(initial, slots)| ==> AbortRows(initial, slots)[x].revision >= initial + k
  {
    if k < |slots| {
      PrefixRows(initial, Init(slots), k);
      assert Init(slots)[..k] == slots[..k];
    } else {
      assert slots[..k] == slots;
    }
  }

  /** What the two tables hold at the point a replay has reached. */
  predicate RowsAt(initial: nat, slots: seq<Slot>, k: nat, history: seq<Row>, aborts: seq<AbortRow>, i: nat, j: nat)
    requires k <= |slots|
  {
    if k == |slots| then i == |history| && j == |aborts|
    else match slots[k]
      case Decided(r, a) =>
        && i < |history| && history[i] == Row(initial + k, r)
        && (if a.Some? then j < |aborts| && aborts[j] == AbortRow(initial + k, a.value)
            else j == |aborts| || (j < |aborts| && aborts[j].revision > initial + k))
      case Burned(a) =>
        && j < |aborts| && aborts[j] == AbortRow(initial + k, a)
        && (i == |history| || (i < |history| && history[i].revision > initial + k))
  }

  lemma RowsAtHold(initial: nat, slots: seq<Slot>, k: nat)
    requires k <= |slots|
    ensures RowsAt(initial, slots, k, HistoryRows(initial, slots), AbortRows(initial, slots),
                   |HistoryRows(initial, slots[..k])|, |AbortRows(initial, slots[..k])|)
  {
    PrefixRows(initial, slots, k);
    if k < |slots| {
      PrefixRows(initial, slots, k + 1);
      assert Init(slots[..k + 1]) == slots[..k];
    } else {
      assert slots[..k] == slots;
    }
  }

  // ---------------------------------------------------------------- operations

  /** What the caller's policy answers during one call. */
  datatype Policy = Policy(continuity: bool, continuityAgain: bool, prepared: bool, applied: bool, abortApplicable: bool)

  datatype Handle = Handle(request: Request, token: Token, certificate: Id, acks: Acks, completion: Option<Id>)

  function HandleOf(r: Record, trust: Trust): Handle {
    var c := Certificate(r.token, trust, r.request);
    Handle(r.request, r.token, if c.Some? then c.value else 0, r.acks, r.completion)
  }

  function FindAbort(rows: seq<AbortRow>, revision: nat): Option<AbortRecord> {
    if rows == [] then None
    else if rows[|rows| - 1].revision == revision then Some(rows[|rows| - 1].record)
    else FindAbort(rows[..|rows| - 1], revision)
  }

  predicate CancelledId(rows: seq<AbortRow>, id: Id) {
    exists i :: 0 <= i < |rows| && rows[i].record.abort.requestId == id
  }

  function DecideOn(scope: Scope, slots: seq<Slot>, trust: Trust, q: Request, token: Token, now: nat, policy: Policy): (r: (Answer<Handle>, seq<Slot>)) {
    var e, rows := Effective(slots), AbortRows(scope.initial, slots);
    if !ValidRequest(q) then (Err(InvalidRequest), slots)
    else if !Readable(scope, trust, slots) then (Err(Unreadable), slots)
    else if !policy.continuity then (Err(PolicyRefused), slots)
    else if e.Some? && e.value.request == q then (if e.value.token == token then Ok(HandleOf(e.value, trust)) else Err(Conflict), slots)
    else if FindAbort(rows, q.revision).Some? then (Err(RevisionAborted), slots)
    else if q.id in Ids(slots) || CancelledId(rows, q.id) then (Err(DuplicateRequest), slots)
    else if !Chains(scope, e, scope.initial + |slots|, q) then (Err(ChainMismatch), slots)
    else if Issuable(token, trust, q, now).None? then (Err(TokenRefused), slots)
    else if !policy.prepared || !policy.continuityAgain then (Err(PolicyRefused), slots)
    else
      var r := Record(q, token, Acks(false, false), None);
      (Ok(HandleOf(r, trust)), slots + [Decided(r, None)])
  }

  /** The head record with one participant's acknowledgement added. */
  function Acked(r: Record, m: Participant): Record {
    if m == r.request.primary then r.(acks := r.acks.(primary := true)) else r.(acks := r.acks.(secondary := true))
  }

  /** The last slot, which is open, with its record replaced. */
  function SetHead(slots: seq<Slot>, r: Record): seq<Slot>
    requires slots != []
  {
    Init(slots) + [Decided(r, None)]
  }

  function AcknowledgeOn(scope: Scope, slots: seq<Slot>, trust: Trust, d: Handle, m: Participant, policy: Policy): (r: (Answer<()>, seq<Slot>)) {
    var e := Effective(slots);
    if !Readable(scope, trust, slots) then (Err(Unreadable), slots)
    else if FindAbort(AbortRows(scope.initial, slots), d.request.revision).Some? then (Err(RevisionAborted), slots)
    else if e.None? then (Err(Missing), slots)
    else if e.value.request != d.request || e.value.token != d.token then (Err(NotCurrent), slots)
    else if !policy.continuity then (Err(PolicyRefused), slots)
    else if m != e.value.request.primary && m != e.value.request.secondary then (Err(MemberMismatch), slots)
    else if Acked(e.value, m) == e.value then (Ok(()), slots)
    else if !policy.applied || !policy.continuityAgain then (Err(PolicyRefused), slots)
    else OpenHeadIsLast(scope, slots); (Ok(()), SetHead(slots, Acked(e.value, m)))
  }

  function CompleteOn(scope: Scope, slots: seq<Slot>, trust: Trust, d: Handle, id: Id, policy: Policy): (r: (Answer<()>, seq<Slot>)) {
    var e := Effective(slots);
    if id == 0 then (Err(ZeroCompletion), slots)
    else if !Readable(scope, trust, slots) then (Err(Unreadable), slots)
    else if FindAbort(AbortRows(scope.initial, slots), d.request.revision).Some? then (Err(RevisionAborted), slots)
    else if e.None? then (Err(Missing), slots)
    else if e.value.request != d.request || e.value.token != d.token || e.value.acks != Acks(true, true) then (Err(EvidenceMissing), slots)
    else if !policy.continuity then (Err(PolicyRefused), slots)
    else if e.value.completion.Some? then (if e.value.completion.value == id then Ok(()) else Err(CompletionConflict), slots)
    else OpenHeadIsLast(scope, slots); (Ok(()), SetHead(slots, e.value.(completion := Some(id))))
  }

  /** The shape of an abort against the present state: it cancels the effective head, or
      takes the next revision when no decision is open. */
  function AbortShape(scope: Scope, slots: seq<Slot>, a: Abort): Option<Fault> {
    var e := Effective(slots);
    if e.Some? && e.value.request.revision == a.abortedRevision then
      if Cancels(a, e.value) then None else Some(TargetMismatch)
    else if a.decided || a.abortedRevision != scope.initial + |slots| then Some(TargetMismatch)
    else if !Done(e) then Some(OpenDecision) else None
  }

  function AbortOn(scope: Scope, slots: seq<Slot>, trust: Trust, a: Abort, token: Token, now: nat, policy: Policy): (r: (Answer<AbortRecord>, seq<Slot>)) {
    var e, rows := Effective(slots), AbortRows(scope.initial, slots);
    var known := FindAbort(rows, a.abortedRevision);
    if !ValidAbort(a) then (Err(InvalidRequest), slots)
    else if !Readable(scope, trust, slots) then (Err(Unreadable), slots)
    else if a.binding != scope.binding then (Err(ScopeMismatch), slots)
    else if e.Some? && !policy.continuity then (Err(PolicyRefused), slots)
    else if known.Some? then
      (if known.value.abort != a || known.value.token != token then Err(Conflict)
       else if e.Some? && !policy.continuityAgain then Err(PolicyRefused)
       else Ok(known.value), slots)
    else if AbortShape(scope, slots, a).Some? then (Err(AbortShape(scope, slots, a).value), slots)
    else if |rows| >= MAX_ABORT_ROWS then (Err(RowLimit), slots)
    else if !policy.abortApplicable then (Err(PolicyRefused), slots)
    else if AbortIssuable(token, trust, a, now).None? then (Err(TokenRefused), slots)
    else if e.Some? && !policy.continuityAgain then (Err(PolicyRefused), slots)
    else
      var x := AbortRecord(2, a, token, AbortIssuable(token, trust, a, now).value);
      (Ok(x), Cancelled(scope, slots, x))
  }

  /** The slots once an abort of the right shape is recorded. */
  function Cancelled(scope: Scope, slots: seq<Slot>, x: AbortRecord): seq<Slot> {
    if slots != [] && Live(Last(slots)) && x.abort.decided then Init(slots) + [Decided(Last(slots).record, Some(x))]
    else slots + [Burned(x)]
  }

  // ---------------------------------------------------------------- facts about heads

  /** A decision that is still open is the last revision used. */
  lemma OpenHeadIsLast(scope: Scope, slots: seq<Slot>)
    requires Chained(scope, slots)
    ensures !Done(Effective(slots)) ==> slots != [] && Live(Last(slots)) && Last(slots).record == Effective(slots).value
    ensures Effective(slots).Some? && Effective(slots).value.acks != Acks(true, true) ==> !Done(Effective(slots))
  {
    hide ValidRequest, ValidAbort, Chains;
    if Effective(slots).Some? {
      var k := EffectiveAt(slots);
      ChainedAt(scope, slots, k);
    }
    if slots != [] && !Live(Last(slots)) {
      HeadBeforeIsDone(scope, Init(slots), Last(slots));
    }
  }

  lemma HeadBeforeIsDone(scope: Scope, before: seq<Slot>, s: Slot)
    requires SlotOk(scope, before, s)
    ensures Done(Effective(before))
  {
  }

  /** Where the effective head sits. */
  lemma {:induction false} EffectiveAt(slots: seq<Slot>) returns (k: nat)
    requires Effective(slots).Some?
    ensures k < |slots| && Live(slots[k]) && slots[k].record == Effective(slots).value
    ensures forall i :: k < i < |slots| ==> !Live(slots[i])
  {
    if Live(Last(slots)) {
      k := |slots| - 1;
    } else {
      k := EffectiveAt(Init(slots));
    }
  }
}
