/** Whole runs of the fixed pair: what every run keeps, that decided data is for good, that an
    admitted view is committed data, and how publication and writing share a pair. */
module Runs {
  import opened Basics
  import opened Reference
  import opened Ledgers
  import opened Pairs

  ghost predicate LegalRun(id: Identity, w: Pair, t: seq<Action>)
    requires Core(id, w)
    decreases |t|
  {
    t == [] || (Legal(id, w, t[0]) && (StepKeeps(id, w, t[0]); LegalRun(id, Step(id, w, t[0]), t[1..])))
  }

  ghost function Run(id: Identity, w: Pair, t: seq<Action>): (v: Pair)
    requires Core(id, w) && LegalRun(id, w, t)
    ensures Core(id, v)
    decreases |t|
  {
    if t == [] then w else StepKeeps(id, w, t[0]); Run(id, Step(id, w, t[0]), t[1..])
  }

  predicate KeepsCopies(t: seq<Action>) {
    forall i :: 0 <= i < |t| ==> !t[i].Replace?
  }

  lemma FreshIsTwin(id: Identity, g: nat, h: nat)
    ensures Core(id, Fresh(g, h)) && Twin(Fresh(g, h))
  {
    assert LedgerOk(id, Fresh(g, h).p) && LedgerOk(id, Fresh(g, h).s);
  }

  lemma {:induction false} RunKeepsTwin(id: Identity, w: Pair, t: seq<Action>)
    requires Core(id, w) && LegalRun(id, w, t) && Twin(w) && KeepsCopies(t)
    ensures Twin(Run(id, w, t))
    decreases |t|
  {
    if t != [] {
      StepKeeps(id, w, t[0]);
      RunKeepsTwin(id, Step(id, w, t[0]), t[1..]);
    }
  }

  /** Safety of whole runs: from an empty pair, whatever crashes and lost replies occur,
      the secondary's journal is a prefix of the primary's, what it applied is decided or
      applied on the primary, every decided entry is on both copies, and the primary
      applied nothing the secondary had not applied. */
  lemma EveryRunIsSafe(id: Identity, g: nat, h: nat, t: seq<Action>)
    requires Core(id, Fresh(g, h)) && LegalRun(id, Fresh(g, h), t)
    ensures Core(id, Run(id, Fresh(g, h), t))
    ensures KeepsCopies(t) ==> Twin(Run(id, Fresh(g, h), t))
  {
    FreshIsTwin(id, g, h);
    if KeepsCopies(t) {
      RunKeepsTwin(id, Fresh(g, h), t);
    }
  }

  lemma StepGrows(id: Identity, w: Pair, a: Action)
    requires Core(id, w) && Legal(id, w, a)
    ensures Grows(w.p, Step(id, w, a).p)
    ensures !a.Replace? && !a.Quarantine? ==> Grows(w.s, Step(id, w, a).s)
    ensures !a.Replace? ==> w.s.applied <= Step(id, w, a).s.applied
  {
    if a.Prepare? { PrepareGrows(w.p, Primary, id, a.batch, a.capture); }
    else if a.Stage? { StageGrows(w.s, Secondary, id, EntryAt(w.p, a.row)); }
    else if a.Decide? { DecideGrows(w.p, Primary, id, a.op); }
    else if a.ApplySecondary? { ApplyGrows(w.s, Secondary, id, EntryAt(w.p, a.row)); }
    else if a.ApplyPrimary? { ApplyGrows(w.p, Primary, id, EntryAt(w.p, a.row)); }
    else if a.AbortSecondary? { AbortGrows(w.s, a.op); }
    else if a.AbortPrimary? { AbortGrows(w.p, a.op); }
    else {
      MarkersGrow(id, w, a);
    }
  }

  /** Steps on publication, base and markers leave both journals as they are. */
  lemma MarkersGrow(id: Identity, w: Pair, a: Action)
    requires LedgerOk(id, w.p) && LedgerOk(id, w.s) && Legal(id, w, a)
    requires a.Confirm? || a.Quarantine? || a.CapturePrimary? || a.CaptureSecondary? || a.ConfirmPrimary? || a.ConfirmSecondary?
          || a.ActivatePrimary? || a.ActivateSecondary? || a.CompactPrimary? || a.CompactSecondary? || a.Replace?
    ensures SameBodies(w.p, Step(id, w, a).p) && w.p.ready == Step(id, w, a).p.ready
    ensures !a.Replace? ==> SameBodies(w.s, Step(id, w, a).s)
    ensures !a.Replace? && !a.Quarantine? && w.s.ready.Some? ==> Step(id, w, a).s.ready.Some?
  {
    match a
    case CapturePrimary(p, n) => CaptureBaseKeeps(w.p, Primary, id, p, n);
    case CaptureSecondary(p, n) => CaptureBaseKeeps(w.s, Secondary, id, p, n);
    case ConfirmPrimary(p) => ConfirmBaseKeeps(w.p, Primary, id, p);
    case ConfirmSecondary(p) => ConfirmBaseKeeps(w.s, Secondary, id, p);
    case ActivatePrimary(p) => ActivateKeeps(w.p, Primary, id, p);
    case ActivateSecondary(p) => ActivateKeeps(w.s, Secondary, id, p);
    case _ =>
  }

  predicate SameBodies(l: Ledger, n: Ledger) {
    n.applied == l.applied && n.pending == l.pending
  }

  /** Nothing decided is ever removed, and applied data never shrinks on a kept copy. */
  lemma {:induction false} RunGrows(id: Identity, w: Pair, t: seq<Action>)
    requires Core(id, w) && LegalRun(id, w, t)
    ensures Committed(w.p) <= Committed(Run(id, w, t).p)
    ensures w.p.applied <= Run(id, w, t).p.applied
    ensures KeepsCopies(t) ==> w.s.applied <= Run(id, w, t).s.applied
    decreases |t|
  {
    if t != [] {
      StepKeeps(id, w, t[0]);
      StepGrows(id, w, t[0]);
      RunGrows(id, Step(id, w, t[0]), t[1..]);
      if KeepsCopies(t) {
        assert !t[0].Replace?;
        assert forall i :: 0 <= i < |t[1..]| ==> t[1..][i] == t[i + 1];
      }
    }
  }

  /** A write acknowledged to a client is on both copies for good. */
  predicate AppliedOnBoth(w: Pair, b: Body) {
    && 0 < b.sequence <= |w.p.applied| && b.sequence <= |w.s.applied|
    && w.p.applied[b.sequence - 1] == b && w.s.applied[b.sequence - 1] == b
  }

  lemma AcknowledgedIsDurable(id: Identity, w: Pair, t: seq<Action>, b: Body)
    requires Core(id, w) && LegalRun(id, w, t) && KeepsCopies(t) && AppliedOnBoth(w, b)
    ensures AppliedOnBoth(Run(id, w, t), b)
  {
    RunGrows(id, w, t);
  }

  /** An operation is decided at no more than one sequence: two committed bodies with one
      operation id, seen at any two moments of a run, are the same body. */
  lemma DecidedOnce(id: Identity, w: Pair, t: seq<Action>, i: nat, j: nat)
    requires Core(id, w) && LegalRun(id, w, t)
    requires i < |Committed(w.p)| && j < |Committed(Run(id, w, t).p)|
    requires Committed(w.p)[i].batch.operationId == Committed(Run(id, w, t).p)[j].batch.operationId
    ensures i == j && Committed(w.p)[i] == Committed(Run(id, w, t).p)[j]
  {
    RunGrows(id, w, t);
    var v := Run(id, w, t);
    assert Committed(v.p) <= Full(v.p);
    assert Committed(w.p)[i] == Committed(v.p)[i] == Full(v.p)[i];
    assert Committed(v.p)[j] == Full(v.p)[j];
  }

  // ---------------------------------------------------------------- runs of the kept pair

  ghost predicate Next(id: Identity, w: Pair, v: Pair) {
    LedgerOk(id, w.p) && LedgerOk(id, w.s) && exists a: Action :: !a.Replace? && Legal(id, w, a) && v == Step(id, w, a)
  }

  ghost predicate Path(id: Identity, ws: seq<Pair>) {
    |ws| > 0 && Core(id, ws[0]) && forall i :: 0 <= i < |ws| - 1 ==> Next(id, ws[i], ws[i + 1])
  }

  ghost predicate Spans(ws: seq<Pair>, w: Pair, v: Pair) {
    |ws| > 0 && ws[0] == w && ws[|ws| - 1] == v
  }

  /** Steps that keep both copies lead from one state to the other. */
  ghost predicate Leads(id: Identity, w: Pair, v: Pair) {
    exists ws: seq<Pair> :: Path(id, ws) && Spans(ws, w, v)
  }

  lemma LeadsNowhere(id: Identity, w: Pair)
    requires Core(id, w)
    ensures Leads(id, w, w)
  {
    assert Path(id, [w]) && Spans([w], w, w);
  }

  lemma LeadsOn(id: Identity, w: Pair, v: Pair, x: Pair)
    requires Leads(id, w, v) && Leads(id, v, x)
    ensures Leads(id, w, x)
  {
    var a :| Path(id, a) && Spans(a, w, v);
    var b :| Path(id, b) && Spans(b, v, x);
    Join(id, a, b);
    assert Spans(a + b[1..], w, x);
  }

  lemma Join(id: Identity, a: seq<Pair>, b: seq<Pair>)
    requires Path(id, a) && Path(id, b) && a[|a| - 1] == b[0]
    ensures Path(id, a + b[1..])
  {
    var c := a + b[1..];
    forall i | 0 <= i < |c| - 1
      ensures Next(id, c[i], c[i + 1])
    {
      if i < |a| - 1 {
        assert c[i] == a[i] && c[i + 1] == a[i + 1];
      } else {
        var j := i - (|a| - 1);
        assert c[i] == b[j] && c[i + 1] == b[j + 1];
      }
    }
  }

  lemma LeadsByStep(id: Identity, w: Pair, a: Action)
    requires Core(id, w) && Legal(id, w, a) && !a.Replace?
    ensures Leads(id, w, Step(id, w, a))
  {
    var v := Step(id, w, a);
    assert Next(id, w, v);
    assert Path(id, [w, v]) && Spans([w, v], w, v);
  }

  lemma NextKeeps(id: Identity, w: Pair, v: Pair)
    requires Core(id, w) && Next(id, w, v)
    ensures Core(id, v) && (Twin(w) ==> Twin(v))
    ensures Committed(w.p) <= Committed(v.p) && w.p.applied <= v.p.applied && w.s.applied <= v.s.applied
  {
    var a: Action :| !a.Replace? && Legal(id, w, a) && v == Step(id, w, a);
    StepKeeps(id, w, a);
    StepGrows(id, w, a);
  }

  lemma {:induction false} PathKeeps(id: Identity, ws: seq<Pair>, i: nat)
    requires Path(id, ws) && i < |ws|
    ensures Core(id, ws[i]) && (Twin(ws[0]) ==> Twin(ws[i]))
    ensures Committed(ws[0].p) <= Committed(ws[i].p) && ws[0].p.applied <= ws[i].p.applied && ws[0].s.applied <= ws[i].s.applied
  {
    if i > 0 {
      PathKeeps(id, ws, i - 1);
      NextKeeps(id, ws[i - 1], ws[i]);
    }
  }

  /** What holds along every such path. */
  lemma LeadsKeeps(id: Identity, w: Pair, v: Pair)
    requires Leads(id, w, v)
    ensures Core(id, v) && (Twin(w) ==> Twin(v))
    ensures Committed(w.p) <= Committed(v.p) && w.p.applied <= v.p.applied && w.s.applied <= v.s.applied
  {
    var ws :| Path(id, ws) && Spans(ws, w, v);
    PathKeeps(id, ws, |ws| - 1);
  }

  // ---------------------------------------------------------------- data

  /** Executing the first n requests one after another from the empty view. */
  function Lineage(a: seq<Body>, n: nat): Option<View>
    requires n <= |a|
  {
    if n == 0 then Some(EMPTY_VIEW)
    else
      match Lineage(a, n - 1)
      case None => None
      case Some(v) => Execute(v, a[n - 1].batch.changes)
  }

  lemma {:induction false} ViewIsLineage(id: Identity, a: seq<Body>, n: nat)
    requires ChainOk(id, a) && Genuine(a) && n <= |a|
    ensures Lineage(a, n) == Some(ViewAt(a, n))
  {
    if n > 0 {
      ViewIsLineage(id, a, n - 1);
      assert LinkOk(id, a, n - 1);
    }
  }

  /** Read admission: in every state of every run, a marker held by the secondary matches
      its data, and the view it admits is the replay, in order and each once, of requests
      that are decided or applied on the primary. */
  lemma AdmittedViewIsCommitted(id: Identity, w: Pair)
    requires Core(id, w) && w.s.ready.Some?
    ensures w.s.ready.value == Current(id, w.s)
    ensures w.s.applied <= Committed(w.p)
    ensures Lineage(Committed(w.p), |w.s.applied|) == Some(ViewAt(w.s.applied, |w.s.applied|))
  {
    var c := Committed(w.p);
    PrefixChainOk(id, c, Full(w.p));
    assert Genuine(c) by {
      forall i | 0 <= i < |c|
        ensures Execute(c[i].before, c[i].batch.changes) == Some(c[i].after)
      {
        assert c[i] == Full(w.p)[i];
      }
    }
    ViewIsLineage(id, c, |w.s.applied|);
  }

  /** Admission, once confirmed, ends only by quarantine or by attaching another copy. */
  lemma AdmissionSurvives(id: Identity, w: Pair, a: Action)
    requires Core(id, w) && Legal(id, w, a) && w.s.ready.Some?
    requires !a.Quarantine? && !a.Replace?
    ensures Step(id, w, a).s.ready == Some(Current(id, Step(id, w, a).s))
  {
    StepGrows(id, w, a);
    assert Core(id, Step(id, w, a)) by {
      StepKeeps(id, w, a);
    }
  }

  /** No step but a confirmation makes a secondary readable that is not. */
  lemma HiddenStep(id: Identity, w: Pair, a: Action)
    requires Core(id, w) && Legal(id, w, a) && w.s.ready.None? && !a.Confirm?
    ensures Step(id, w, a).s.ready.None?
  {
    hide ChainOk, PublicationOk, Journals, Slots;
  }

  lemma {:induction false} StaysHidden(id: Identity, w: Pair, t: seq<Action>)
    requires Core(id, w) && LegalRun(id, w, t) && w.s.ready.None? && forall i :: 0 <= i < |t| ==> !t[i].Confirm?
    ensures Run(id, w, t).s.ready.None?
    decreases |t|
  {
    if t != [] {
      StepKeeps(id, w, t[0]);
      HiddenStep(id, w, t[0]);
      StaysHidden(id, Step(id, w, t[0]), t[1..]);
    }
  }

  /** A quarantined secondary keeps its journal, but shows no view whatever runs until it is
      confirmed again, and refuses every proposal bound to its former generation. */
  lemma QuarantineHolds(id: Identity, w: Pair, g: nat, t: seq<Action>, p: Proposal, bytes: nat)
    requires Core(id, w) && Legal(id, w, Quarantine(g)) && Core(id, Step(id, w, Quarantine(g)))
    requires LegalRun(id, Step(id, w, Quarantine(g)), t) && forall i :: 0 <= i < |t| ==> !t[i].Confirm?
    ensures Run(id, Step(id, w, Quarantine(g)), t).s.ready.None?
    ensures var n := Step(id, w, Quarantine(g)).s;
            && Full(n) == Full(w.s) && n.applied == w.s.applied && n.publication == w.s.publication && n.floor == w.s.floor && n.generation == g
            && (p.secondaryGeneration == w.s.generation != g ==>
                  && CaptureBaseOn(n, Secondary, id, p, bytes) == (Err(StaleGeneration), n)
                  && ConfirmBaseOn(n, Secondary, id, p) == (Err(StaleGeneration), n)
                  && ActivateOn(n, Secondary, id, p) == (Err(StaleGeneration), n))
  {
    QuarantineMeans(w.s, id, g, p, bytes);
    hide Journals, Slots, ChainOk, PublicationOk, CaptureBaseOn, ConfirmBaseOn, ActivateOn, Run, LegalRun;
    StaysHidden(id, Step(id, w, Quarantine(g)), t);
  }

  // ---------------------------------------------------------------- publication

  /** No entry the primary could prepare is refused on the secondary by a publication that
      stopped half way: with equal applied histories, staging it succeeds. */
  lemma PreparedIsStageable(id: Identity, w: Pair, batch: Batch, c: Capture)
    requires Core(id, w) && w.p.applied == w.s.applied
    requires w.p.pending.None? && PrepareOn(w.p, Primary, id, batch, c).1 != w.p
    ensures Idle(w.s.publication)
    ensures StageOn(w.s, Secondary, id, PrepareOn(w.p, Primary, id, batch, c).0.value).0 == Ok(())
  {
    assert Full(w.s) == w.s.applied == Full(w.p);
  }

  /** Activating a base moves the floor and nothing else: checkpoint, length, receipts and
      entries stay, whichever node activates. */
  lemma ActivationIsTransparent(l: Ledger, role: Role, id: Identity, p: Proposal)
    requires LedgerOk(id, l)
    ensures var n := ActivateOn(l, role, id, p).1;
            && Current(id, n) == Current(id, l) && Length(n) == Length(l)
            && (forall op: Text :: ReceiptOn(n, op) == ReceiptOn(l, op))
            && (forall i :: 1 <= i <= Length(l) ==> EntryAt(n, i) == EntryAt(l, i))
  {
    var n := ActivateOn(l, role, id, p).1;
    assert Full(n) == Full(l);
  }
}
