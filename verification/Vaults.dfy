/** A vault's three files: the encrypted database, its committed key sidecar and a staged
    sidecar. Key derivation and sealing are ideal: a derived key reveals its inputs, and a
    seal opens with its own key and purpose only. Every operation may be cut short after any
    of its file steps. */
module Vaults {
  import opened Basics

  /** Key derivation parameters. */
  datatype Cost = Cost(memoryKib: nat, passes: nat, lanes: nat)
  datatype Secret = Phrase(text: string) | Code(id: nat)
  datatype Key = Derived(secret: Secret, salt: nat, cost: Cost) | Random(id: nat)
  datatype Purpose = PasswordSlot | RecoverySlot
  datatype Wrap = Wrap(key: Key, content: Key, purpose: Purpose)
  datatype KeySlot = KeySlot(salt: nat, cost: Cost, wrap: Wrap)

  /** A legacy sidecar derives the database key; the present one wraps a random key. */
  datatype Meta = Legacy(salt: nat, cost: Cost) | Slots(password: KeySlot, recovery: Option<KeySlot>)

  /** `db` is the key the database file is encrypted with. */
  datatype Files = Files(db: Option<Key>, sidecar: Option<Meta>, staged: Option<Meta>)

  datatype VaultError = MetaMissing | WrongPassphrase | WrongRecoveryCode | NoRecoverySlot | LegacyFormat | AlreadyExists | Crashed

  type Opened<T> = Result<T, VaultError>

  const MIN_MEMORY_KIB: nat := 19 * 1024
  const MIN_PASSES: nat := 2

  function Larger(a: nat, b: nat): nat {
    if a < b then b else a
  }

  /** New slots never use less than the floor, whatever a legacy sidecar asks for. */
  function Floored(cost: Cost): Cost {
    cost.(memoryKib := Larger(cost.memoryKib, MIN_MEMORY_KIB), passes := Larger(cost.passes, MIN_PASSES))
  }

  /** Fresh random values for one operation. */
  datatype Randomness = Randomness(dek: nat, salt: nat)

  // ---------------------------------------------------------------- slots

  function Seal(secret: Secret, salt: nat, cost: Cost, content: Key, purpose: Purpose): KeySlot {
    KeySlot(salt, cost, Wrap(Derived(secret, salt, cost), content, purpose))
  }

  /** What a slot yields for a secret. */
  function Unwrap(slot: KeySlot, secret: Secret, purpose: Purpose): Option<Key> {
    if slot.wrap.key == Derived(secret, slot.salt, slot.cost) && slot.wrap.purpose == purpose then Some(slot.wrap.content) else None
  }

  // ---------------------------------------------------------------- operations

  /** Create: orphan files are cleared, the database is keyed with a random key, then the
      sidecar is committed. */
  function CreateOn(f: Files, phrase: string, cost: Cost, x: Randomness, steps: nat): (Opened<Key>, Files) {
    if f.db.Some? && f.sidecar.Some? then (Err(AlreadyExists), f)
    else
      var dek := Random(x.dek);
      var cleared := Files(None, None, f.staged);
      if steps == 0 then (Err(Crashed), f)
      else if steps == 1 then (Err(Crashed), cleared)
      else if steps == 2 then (Err(Crashed), cleared.(db := Some(dek)))
      else (Ok(dek), cleared.(db := Some(dek), sidecar := Some(Slots(Seal(Phrase(phrase), x.salt, cost, dek, PasswordSlot), None))))
  }

  /** Moving a legacy vault to slots: stage the new sidecar, rekey the database, commit the
      sidecar by renaming it. */
  function MigrateOn(f: Files, phrase: string, cost: Cost, x: Randomness, steps: nat): (Opened<Key>, Files) {
    var dek := Random(x.dek);
    var meta := Slots(Seal(Phrase(phrase), x.salt, Floored(cost), dek, PasswordSlot), None);
    if steps == 0 then (Err(Crashed), f)
    else if steps == 1 then (Err(Crashed), f.(staged := None))
    else if steps == 2 then (Err(Crashed), f.(staged := Some(meta)))
    else if steps == 3 then (Err(Crashed), f.(staged := Some(meta), db := Some(dek)))
    else (Ok(dek), Files(Some(dek), Some(meta), None))
  }

  /** Finishing a change that stopped between the rekey and the commit. */
  function RecoverOn(f: Files, phrase: string, steps: nat): (Opened<Key>, Files)
    requires f.db.Some?
  {
    match f.staged
    case None => (Err(WrongPassphrase), f)
    case Some(meta) =>
      var key := if meta.Legacy? then Some(Derived(Phrase(phrase), meta.salt, meta.cost)) else Unwrap(meta.password, Phrase(phrase), PasswordSlot);
      if key != f.db then (Err(WrongPassphrase), f)
      else if steps == 0 then (Err(Crashed), f)
      else (Ok(key.value), f.(sidecar := Some(meta), staged := None))
  }

  function OpenOn(f: Files, phrase: string, x: Randomness, steps: nat): (Opened<Key>, Files) {
    if f.sidecar.None? || f.db.None? then (Err(MetaMissing), f)
    else
      match f.sidecar.value
      case Slots(password, _) =>
        if Unwrap(password, Phrase(phrase), PasswordSlot) != f.db then (Err(WrongPassphrase), f)
        else if steps == 0 then (Err(Crashed), f)
        else (Ok(f.db.value), f.(staged := None))
      case Legacy(salt, cost) =>
        if f.db.value == Derived(Phrase(phrase), salt, cost) then MigrateOn(f, phrase, cost, x, steps)
        else RecoverOn(f, phrase, steps)
  }

  function OpenWithRecoveryOn(f: Files, code: nat): Opened<Key> {
    if f.sidecar.None? || f.db.None? then Err(MetaMissing)
    else if f.sidecar.value.Legacy? || f.sidecar.value.recovery.None? then Err(NoRecoverySlot)
    else if Unwrap(f.sidecar.value.recovery.value, Code(code), RecoverySlot) != f.db then Err(WrongRecoveryCode)
    else Ok(f.db.value)
  }

  /** What a change was planned to put in place; `content` is the key of the handle it came
      from. */
  datatype Plan = PasswordPlan(slot: KeySlot, phrase: string) | RecoveryPlan(slot: KeySlot, code: nat)

  /** Change the passphrase, knowing the old one: the slot must unwrap to the handle's key. */
  function PlanRotation(handle: Key, current: KeySlot, before: string, after: string, salt: nat): Opened<Plan> {
    if Unwrap(current, Phrase(before), PasswordSlot) != Some(handle) then Err(WrongPassphrase)
    else Ok(PasswordPlan(Seal(Phrase(after), salt, current.cost, handle, PasswordSlot), after))
  }

  /** Set a passphrase on the strength of an open handle alone. */
  function PlanSetPassphrase(handle: Key, cost: Cost, after: string, salt: nat): Plan {
    PasswordPlan(Seal(Phrase(after), salt, cost, handle, PasswordSlot), after)
  }

  function PlanEnroll(handle: Key, cost: Cost, code: nat, salt: nat): Plan {
    RecoveryPlan(Seal(Code(code), salt, cost, handle, RecoverySlot), code)
  }

  /** Commit a plan: one slot of the sidecar is replaced in one atomic write. */
  function ApplyOn(f: Files, plan: Plan, steps: nat): (Opened<()>, Files) {
    if f.sidecar.None? then (Err(MetaMissing), f)
    else if f.sidecar.value.Legacy? then (Err(LegacyFormat), f)
    else if steps == 0 then (Err(Crashed), f)
    else
      match plan
      case PasswordPlan(slot, _) => (Ok(()), f.(sidecar := Some(f.sidecar.value.(password := slot))))
      case RecoveryPlan(slot, _) => (Ok(()), f.(sidecar := Some(f.sidecar.value.(recovery := Some(slot)))))
  }

  function RemoveRecoveryOn(f: Files, steps: nat): (Opened<()>, Files) {
    if f.sidecar.None? then (Err(MetaMissing), f)
    else if f.sidecar.value.Legacy? then (Err(LegacyFormat), f)
    else if f.sidecar.value.recovery.None? then (Err(NoRecoverySlot), f)
    else if steps == 0 then (Err(Crashed), f)
    else (Ok(()), f.(sidecar := Some(f.sidecar.value.(recovery := None))))
  }

  // ---------------------------------------------------------------- the disk

  class Disk {
    var files: Files

    constructor ()
      ensures files == Files(None, None, None)
    {
      files := Files(None, None, None);
    }

    /** The process may stop after any file step. */
    method Create(phrase: string, cost: Cost, x: Randomness, steps: nat) returns (r: Opened<Key>)
      modifies this
      ensures (r, files) == CreateOn(old(files), phrase, cost, x, steps)
    {
      if files.db.Some? && files.sidecar.Some? {
        return Err(AlreadyExists);
      }
      if steps == 0 {
        return Err(Crashed);
      }
      files := files.(db := None, sidecar := None);
      if steps == 1 {
        return Err(Crashed);
      }
      var dek := Random(x.dek);
      var slot := Seal(Phrase(phrase), x.salt, cost, dek, PasswordSlot);
      files := files.(db := Some(dek));
      if steps == 2 {
        return Err(Crashed);
      }
      files := files.(sidecar := Some(Slots(slot, None)));
      r := Ok(dek);
    }

    method Open(phrase: string, x: Randomness, steps: nat) returns (r: Opened<Key>)
      modifies this
      ensures (r, files) == OpenOn(old(files), phrase, x, steps)
    {
      if files.sidecar.None? || files.db.None? {
        return Err(MetaMissing);
      }
      var meta := files.sidecar.value;
      if meta.Slots? {
        var dek := Unwrap(meta.password, Phrase(phrase), PasswordSlot);
        if dek.None? || dek != files.db {
          return Err(WrongPassphrase);
        }
        if steps == 0 {
          return Err(Crashed);
        }
        files := files.(staged := None);
        return Ok(dek.value);
      }
      if files.db.value == Derived(Phrase(phrase), meta.salt, meta.cost) {
        r := Migrate(phrase, meta.cost, x, steps);
      } else {
        r := Recover(phrase, steps);
      }
    }

    method Migrate(phrase: string, cost: Cost, x: Randomness, steps: nat) returns (r: Opened<Key>)
      modifies this
      ensures (r, files) == MigrateOn(old(files), phrase, cost, x, steps)
    {
      if steps == 0 {
        return Err(Crashed);
      }
      files := files.(staged := None);
      if steps == 1 {
        return Err(Crashed);
      }
      var dek := Random(x.dek);
      files := files.(staged := Some(Slots(Seal(Phrase(phrase), x.salt, Floored(cost), dek, PasswordSlot), None)));
      if steps == 2 {
        return Err(Crashed);
      }
      files := files.(db := Some(dek));
      if steps == 3 {
        return Err(Crashed);
      }
      files := files.(sidecar := files.staged, staged := None);
      r := Ok(dek);
    }

    method Recover(phrase: string, steps: nat) returns (r: Opened<Key>)
      requires files.db.Some?
      modifies this
      ensures (r, files) == RecoverOn(old(files), phrase, steps)
    {
      if files.staged.None? {
        return Err(WrongPassphrase);
      }
      var meta := files.staged.value;
      var key := if meta.Legacy? then Some(Derived(Phrase(phrase), meta.salt, meta.cost)) else Unwrap(meta.password, Phrase(phrase), PasswordSlot);
      if key.None? || key != files.db {
        return Err(WrongPassphrase);
      }
      if steps == 0 {
        return Err(Crashed);
      }
      files := files.(sidecar := Some(meta), staged := None);
      r := Ok(key.value);
    }

    method Apply(plan: Plan, steps: nat) returns (r: Opened<()>)
      modifies this
      ensures (r, files) == ApplyOn(old(files), plan, steps)
    {
      if files.sidecar.None? {
        return Err(MetaMissing);
      }
      var meta := files.sidecar.value;
      if meta.Legacy? {
        return Err(LegacyFormat);
      }
      meta := if plan.PasswordPlan? then meta.(password := plan.slot) else meta.(recovery := Some(plan.slot));
      if steps == 0 {
        return Err(Crashed);
      }
      files := files.(sidecar := Some(meta));
      r := Ok(());
    }

    method RemoveRecovery(steps: nat) returns (r: Opened<()>)
      modifies this
      ensures (r, files) == RemoveRecoveryOn(old(files), steps)
    {
      if files.sidecar.None? {
        return Err(MetaMissing);
      }
      var meta := files.sidecar.value;
      if meta.Legacy? {
        return Err(LegacyFormat);
      }
      if meta.recovery.None? {
        return Err(NoRecoverySlot);
      }
      if steps == 0 {
        return Err(Crashed);
      }
      files := files.(sidecar := Some(meta.(recovery := None)));
      r := Ok(());
    }
  }

  // ---------------------------------------------------------------- safety

  /** A passphrase gets at the database: through the committed sidecar, or through a staged
      one left between the rekey and the commit. */
  predicate Unlocks(f: Files, phrase: string) {
    f.db.Some? && f.sidecar.Some? &&
    match f.sidecar.value
    case Slots(password, _) => Unwrap(password, Phrase(phrase), PasswordSlot) == f.db
    case Legacy(salt, cost) => f.db.value == Derived(Phrase(phrase), salt, cost) || StagedUnlocks(f, phrase)
  }

  predicate StagedUnlocks(f: Files, phrase: string)
    requires f.db.Some?
  {
    match f.staged
    case None => false
    case Some(Legacy(salt, cost)) => f.db.value == Derived(Phrase(phrase), salt, cost)
    case Some(Slots(password, _)) => Unwrap(password, Phrase(phrase), PasswordSlot) == f.db
  }

  /** A staged sidecar of the present format comes from a migration. */
  predicate MigrationOnly(m: Option<Meta>) {
    m.Some? && m.value.Slots? ==> m.value.password.wrap.content.Random? && m.value.recovery.None?
  }

  /** The committed passphrase, and no other, unlocks the vault, and every slot present
      holds the one database key. */
  predicate Safe(f: Files, phrase: string) {
    && Unlocks(f, phrase)
    && (f.sidecar.value.Slots? ==>
          && f.sidecar.value.password.wrap.content == f.db.value && f.db.value.Random?
          && (f.sidecar.value.recovery.Some? ==> f.sidecar.value.recovery.value.wrap.content == f.db.value))
    && (f.sidecar.value.Legacy? ==> MigrationOnly(f.staged))
  }

  /** No other passphrase unlocks. */
  lemma OnlyOnePhrase(f: Files, phrase: string, other: string)
    requires Safe(f, phrase)
    ensures Unlocks(f, other) <==> other == phrase
  {
  }

  /** Opening with the committed passphrase always succeeds when the process is not cut
      short; with any other it never does. Cut short or not, the vault stays safe under the
      same passphrase, and no recovery slot changes. */
  lemma OpenKeepsSafe(f: Files, phrase: string, typed: string, x: Randomness, steps: nat)
    requires Safe(f, phrase)
    ensures Safe(OpenOn(f, typed, x, steps).1, phrase)
    ensures typed == phrase && steps >= 4 ==> OpenOn(f, typed, x, steps).0.Ok?
    ensures OpenOn(f, typed, x, steps).0.Ok? ==> typed == phrase && OpenOn(f, typed, x, steps).1.db == Some(OpenOn(f, typed, x, steps).0.value)
    ensures OpenOn(f, typed, x, steps).0.Ok? ==> OpenOn(f, typed, x, steps).1.staged.None?
    ensures typed != phrase ==> OpenOn(f, typed, x, steps) == (Err(WrongPassphrase), f)
    ensures f.sidecar.value.Slots? ==> OpenOn(f, typed, x, steps).1.db == f.db && OpenOn(f, typed, x, steps).1.sidecar == f.sidecar
  {
    OnlyOnePhrase(f, phrase, typed);
  }

  /** Creating over nothing, or over an orphan, either commits a safe vault or leaves no
      complete vault behind, so that it can be tried again. */
  lemma CreateIsSafe(f: Files, phrase: string, cost: Cost, x: Randomness, steps: nat)
    requires f.db.None? || f.sidecar.None?
    ensures var (r, n) := CreateOn(f, phrase, cost, x, steps);
            if r.Ok? then Safe(n, phrase) else n.db.None? || n.sidecar.None?
    ensures steps >= 3 ==> CreateOn(f, phrase, cost, x, steps).0.Ok?
  {
  }

  /** The exact condition under which a committed plan leaves the vault safe: it was made
      from a handle that holds the database key. The commit itself does not check it. */
  lemma ApplyIsSafeIff(f: Files, phrase: string, plan: Plan, steps: nat)
    requires Safe(f, phrase) && ApplyOn(f, plan, steps).0.Ok? && WellSealed(plan)
    ensures Safe(ApplyOn(f, plan, steps).1, if plan.PasswordPlan? then plan.phrase else phrase) <==> plan.slot.wrap.content == f.db.value
  {
  }

  /** A plan as the planning functions build it. */
  predicate WellSealed(plan: Plan) {
    match plan
    case PasswordPlan(slot, phrase) => slot == Seal(Phrase(phrase), slot.salt, slot.cost, slot.wrap.content, PasswordSlot)
    case RecoveryPlan(slot, code) => slot == Seal(Code(code), slot.salt, slot.cost, slot.wrap.content, RecoverySlot)
  }

  /** Rotation checks the handle against the slot, so its plans always hold the database
      key; the other two are as good as the handle. */
  lemma PlansHoldHandleKey(f: Files, phrase: string, handle: Key, before: string, after: string, cost: Cost, code: nat, salt: nat)
    requires Safe(f, phrase) && f.sidecar.value.Slots?
    ensures PlanRotation(handle, f.sidecar.value.password, before, after, salt).Ok? <==> before == phrase && handle == f.db.value
    ensures PlanRotation(handle, f.sidecar.value.password, before, after, salt).Ok? ==>
              var plan := PlanRotation(handle, f.sidecar.value.password, before, after, salt).value;
              Sound(f, plan) && plan == PasswordPlan(plan.slot, after)
    ensures PlanSetPassphrase(handle, cost, after, salt).phrase == after && PlanEnroll(handle, cost, code, salt).code == code
    ensures handle == f.db.value <==> Sound(f, PlanSetPassphrase(handle, cost, after, salt))
    ensures handle == f.db.value <==> Sound(f, PlanEnroll(handle, cost, code, salt))
  {
  }

  /** A plan that may be committed at any later time. */
  predicate Sound(f: Files, plan: Plan) {
    WellSealed(plan) && f.db == Some(plan.slot.wrap.content)
  }

  // ---------------------------------------------------------------- changes take effect

  /** The vault opens with this passphrase, giving this key, and with no other. */
  ghost predicate OpensOnly(f: Files, phrase: string, key: Key) {
    forall typed: string, x: Randomness, steps: nat :: steps >= 4 ==>
      OpenOn(f, typed, x, steps).0 == if typed == phrase then Ok(key) else Err(WrongPassphrase)
  }

  /** Exactly this recovery code opens the vault, giving this key. */
  ghost predicate RecoversOnly(f: Files, code: nat, key: Key) {
    forall typed: nat :: OpenWithRecoveryOn(f, typed) == if typed == code then Ok(key) else Err(WrongRecoveryCode)
  }

  lemma SafeOpens(f: Files, phrase: string)
    requires Safe(f, phrase) && f.sidecar.value.Slots?
    ensures OpensOnly(f, phrase, f.db.value)
  {
    forall typed: string, x: Randomness, steps: nat | steps >= 4
      ensures OpenOn(f, typed, x, steps).0 == if typed == phrase then Ok(f.db.value) else Err(WrongPassphrase)
    {
      OnlyOnePhrase(f, phrase, typed);
    }
  }

  /** Once a rotation is committed the new passphrase opens the vault and the old one does
      not, unless they are equal; the key, the cost and the recovery slot stay. */
  lemma RotationTakesEffect(f: Files, phrase: string, handle: Key, before: string, after: string, salt: nat, steps: nat)
    requires Safe(f, phrase) && f.sidecar.value.Slots? && steps >= 1
    requires PlanRotation(handle, f.sidecar.value.password, before, after, salt).Ok?
    ensures var (r, n) := ApplyOn(f, PlanRotation(handle, f.sidecar.value.password, before, after, salt).value, steps);
            && r.Ok? && before == phrase && Safe(n, after) && OpensOnly(n, after, f.db.value) && n.db == f.db
            && n.sidecar.value.Slots? && n.sidecar.value.recovery == f.sidecar.value.recovery
            && n.sidecar.value.password.cost == f.sidecar.value.password.cost
  {
    SafeOpens(ApplyOn(f, PlanRotation(handle, f.sidecar.value.password, before, after, salt).value, steps).1, after);
  }

  /** Setting a passphrase from a handle of the database key makes it the only one that
      opens the vault; from any other handle no passphrase opens it any more. */
  lemma SetPassphraseTakesEffect(f: Files, phrase: string, handle: Key, cost: Cost, after: string, salt: nat, steps: nat)
    requires Safe(f, phrase) && f.sidecar.value.Slots? && steps >= 1
    ensures var (r, n) := ApplyOn(f, PlanSetPassphrase(handle, cost, after, salt), steps);
            && r.Ok? && n.db == f.db && n.sidecar.value.Slots? && n.sidecar.value.recovery == f.sidecar.value.recovery
            && (if handle == f.db.value then Safe(n, after) && OpensOnly(n, after, f.db.value) else forall typed: string :: !Unlocks(n, typed))
  {
    if handle == f.db.value {
      SafeOpens(ApplyOn(f, PlanSetPassphrase(handle, cost, after, salt), steps).1, after);
    }
  }

  /** An enrolled code, and no other, opens the vault, and the passphrase still does; a slot
      made from a handle of another key is opened by no code. */
  lemma EnrollTakesEffect(f: Files, phrase: string, handle: Key, cost: Cost, code: nat, salt: nat, steps: nat)
    requires Safe(f, phrase) && f.sidecar.value.Slots? && steps >= 1
    ensures var (r, n) := ApplyOn(f, PlanEnroll(handle, cost, code, salt), steps);
            && r.Ok? && OpensOnly(n, phrase, f.db.value) && n.db == f.db
            && (if handle == f.db.value then Safe(n, phrase) && RecoversOnly(n, code, f.db.value)
                else forall typed: nat :: OpenWithRecoveryOn(n, typed) == Err(WrongRecoveryCode))
  {
    SafeOpens(f, phrase);
    var n := ApplyOn(f, PlanEnroll(handle, cost, code, salt), steps).1;
    forall typed: string, x: Randomness, steps: nat | steps >= 4
      ensures OpenOn(n, typed, x, steps).0 == OpenOn(f, typed, x, steps).0
    {
    }
  }

  /** Removal succeeds exactly if a code is enrolled; afterwards no code opens the vault, and
      the passphrase still does. */
  lemma RemovalTakesEffect(f: Files, phrase: string, steps: nat)
    requires Safe(f, phrase) && f.sidecar.value.Slots? && steps >= 1
    ensures var (r, n) := RemoveRecoveryOn(f, steps);
            && r == (if f.sidecar.value.recovery.Some? then Ok(()) else Err(NoRecoverySlot))
            && Safe(n, phrase) && OpensOnly(n, phrase, f.db.value) && n.db == f.db
            && forall typed: nat :: OpenWithRecoveryOn(n, typed) == Err(NoRecoverySlot)
  {
    SafeOpens(RemoveRecoveryOn(f, steps).1, phrase);
  }

  /** A forgotten passphrase: what a recovery code opens can be given a new passphrase, which
      then opens the vault alone, and the code keeps working. */
  lemma RecoveryResets(f: Files, phrase: string, code: nat, cost: Cost, after: string, salt: nat, steps: nat)
    requires Safe(f, phrase) && OpenWithRecoveryOn(f, code).Ok? && steps >= 1
    ensures var n := ApplyOn(f, PlanSetPassphrase(OpenWithRecoveryOn(f, code).value, cost, after, salt), steps).1;
            Safe(n, after) && OpensOnly(n, after, f.db.value) && OpenWithRecoveryOn(n, code) == Ok(f.db.value)
  {
    SetPassphraseTakesEffect(f, phrase, OpenWithRecoveryOn(f, code).value, cost, after, salt, steps);
  }

  /** Opening a legacy vault moves it to slots under a new random key that its passphrase
      alone opens; the new slot costs no less than before and no less than the floor. */
  lemma OpeningMigrates(f: Files, phrase: string, x: Randomness, steps: nat)
    requires Safe(f, phrase) && f.sidecar.value.Legacy? && steps >= 4
    requires f.db.value == Derived(Phrase(phrase), f.sidecar.value.salt, f.sidecar.value.cost)
    ensures var (r, n) := OpenOn(f, phrase, x, steps); var legacy := f.sidecar.value.cost;
            && r == Ok(Random(x.dek)) && n.staged.None? && Safe(n, phrase) && OpensOnly(n, phrase, Random(x.dek))
            && n.sidecar.value.Slots? && n.sidecar.value.recovery.None?
            && var cost := n.sidecar.value.password.cost;
               && cost.memoryKib >= legacy.memoryKib && cost.memoryKib >= 19456 && (cost.memoryKib == legacy.memoryKib || cost.memoryKib == 19456)
               && cost.passes >= legacy.passes && cost.passes >= 2 && (cost.passes == legacy.passes || cost.passes == 2) && cost.lanes == legacy.lanes
  {
    SafeOpens(OpenOn(f, phrase, x, steps).1, phrase);
  }

  /** A new vault is opened by its passphrase alone and by no recovery code. */
  lemma CreatedOpens(f: Files, phrase: string, cost: Cost, x: Randomness, steps: nat)
    requires CreateOn(f, phrase, cost, x, steps).0.Ok?
    ensures var (r, n) := CreateOn(f, phrase, cost, x, steps);
            && r == Ok(Random(x.dek)) && OpensOnly(n, phrase, Random(x.dek)) && n.sidecar.value.password.cost == cost
            && forall typed: nat :: OpenWithRecoveryOn(n, typed) == Err(NoRecoverySlot)
  {
    SafeOpens(CreateOn(f, phrase, cost, x, steps).1, phrase);
  }

  // ---------------------------------------------------------------- runs

  /** What may happen to a vault. Plans were made at any earlier time, so the events of
      several changes interleave freely; every event may be cut short. */
  datatype Event =
    | Opening(typed: string, x: Randomness, steps: nat)
    | Committing(plan: Plan, steps: nat)
    | Removing(steps: nat)

  function After(f: Files, e: Event): Files {
    match e
    case Opening(typed, x, steps) => OpenOn(f, typed, x, steps).1
    case Committing(plan, steps) => ApplyOn(f, plan, steps).1
    case Removing(steps) => RemoveRecoveryOn(f, steps).1
  }

  /** The passphrase in force: that of the last password plan committed. */
  function PhraseAfter(f: Files, phrase: string, e: Event): string {
    if e.Committing? && e.plan.PasswordPlan? && ApplyOn(f, e.plan, e.steps).0.Ok? then e.plan.phrase else phrase
  }

  function Run(f: Files, es: seq<Event>): Files
    decreases |es|
  {
    if es == [] then f else Run(After(f, es[0]), es[1..])
  }

  function PhraseOf(f: Files, phrase: string, es: seq<Event>): string
    decreases |es|
  {
    if es == [] then phrase else PhraseOf(After(f, es[0]), PhraseAfter(f, phrase, es[0]), es[1..])
  }

  /** Every plan committed in the run holds the key of the database at that moment. */
  predicate SoundPlans(f: Files, es: seq<Event>)
    decreases |es|
  {
    es == [] || ((es[0].Committing? ==> Sound(f, es[0].plan)) && SoundPlans(After(f, es[0]), es[1..]))
  }

  lemma EventKeepsSafe(f: Files, phrase: string, e: Event)
    requires Safe(f, phrase) && (e.Committing? ==> Sound(f, e.plan))
    ensures Safe(After(f, e), PhraseAfter(f, phrase, e))
    ensures f.sidecar.value.Slots? ==> After(f, e).db == f.db && After(f, e).sidecar.value.Slots?
  {
    if e.Opening? {
      OpenKeepsSafe(f, phrase, e.typed, e.x, e.steps);
    }
  }

  /** Over every run, with a crash at any file step: the last committed passphrase opens the
      vault, and every slot present unwraps to the one database key. */
  lemma {:induction false} EveryRunIsSafe(f: Files, phrase: string, es: seq<Event>)
    requires Safe(f, phrase) && SoundPlans(f, es)
    ensures Safe(Run(f, es), PhraseOf(f, phrase, es))
    decreases |es|
  {
    if es != [] {
      EventKeepsSafe(f, phrase, es[0]);
      EveryRunIsSafe(After(f, es[0]), PhraseAfter(f, phrase, es[0]), es[1..]);
    }
  }

  /** Every commit in the run is of a plan made on a handle of this key. */
  predicate PlansOf(key: Key, es: seq<Event>) {
    forall i :: 0 <= i < |es| && es[i].Committing? ==> WellSealed(es[i].plan) && es[i].plan.slot.wrap.content == key
  }

  /** Once the vault uses slots its key never changes, so plans made at any time on handles
      of that key may be committed in any order. */
  lemma {:induction false} KeyIsStable(f: Files, phrase: string, es: seq<Event>)
    requires Safe(f, phrase) && f.sidecar.value.Slots? && PlansOf(f.db.value, es)
    ensures SoundPlans(f, es) && Run(f, es).db == f.db
    decreases |es|
  {
    if es != [] {
      EventKeepsSafe(f, phrase, es[0]);
      KeyIsStable(After(f, es[0]), PhraseAfter(f, phrase, es[0]), es[1..]);
    }
  }

  predicate NoRecoveryChange(es: seq<Event>) {
    forall i :: 0 <= i < |es| ==> !es[i].Removing? && (es[i].Committing? ==> es[i].plan.PasswordPlan?)
  }

  /** Passphrase changes, however interleaved and cut short, never touch the recovery slot:
      its code keeps opening the vault. */
  lemma {:induction false} RecoverySurvives(f: Files, phrase: string, es: seq<Event>, code: nat)
    requires Safe(f, phrase) && f.sidecar.value.Slots? && PlansOf(f.db.value, es) && NoRecoveryChange(es)
    ensures Run(f, es).sidecar.Some? && Run(f, es).sidecar.value.Slots? && Run(f, es).sidecar.value.recovery == f.sidecar.value.recovery
    ensures OpenWithRecoveryOn(Run(f, es), code) == OpenWithRecoveryOn(f, code)
    decreases |es|
  {
    if es != [] {
      EventKeepsSafe(f, phrase, es[0]);
      RecoverySurvives(After(f, es[0]), PhraseAfter(f, phrase, es[0]), es[1..], code);
    }
  }

  /** A passphrase reset can lock a vault for good. A handle from a finished legacy change
      keeps the legacy key; a second opening migrates the vault to a random key; a plan made
      on the first handle then commits the legacy key, and no passphrase unlocks. */
  lemma StaleHandleLocksOut(typed: string)
    ensures var cost := Cost(19456, 2, 1);
            var legacy := Files(Some(Derived(Phrase("p"), 1, cost)), Some(Legacy(0, cost)), Some(Legacy(1, cost)));
            var (first, recovered) := OpenOn(legacy, "p", Randomness(7, 8), 4);
            var (second, migrated) := OpenOn(recovered, "p", Randomness(7, 8), 4);
            && Safe(legacy, "p") && first.Ok? && second.Ok? && migrated.sidecar.value.Slots?
            && ApplyOn(migrated, PlanSetPassphrase(first.value, cost, "q", 9), 1).0.Ok?
            && !Unlocks(ApplyOn(migrated, PlanSetPassphrase(first.value, cost, "q", 9), 1).1, typed)
  {
  }
}
