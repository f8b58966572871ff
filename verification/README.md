# Verified models of the vault's replication, recovery and key handling

This project models, in Dafny, the parts of the system whose correctness is hardest to see
from the code, and proves what they promise.

- **The fixed pair.** A primary and a secondary each keep a journal of requests (prepared,
  decided, applied), the view they build, receipts and a read marker. `Ledgers` gives every
  operation of a node as a function on an abstract ledger; `Tables` and `Nodes` implement
  the operations over the stored tables and prove that they do the same. `Pairs` is the state
  machine of the pair: its steps are the durable effects of single calls and may follow each
  other freely, so its runs contain every crash, every call that was not executed and every
  lost reply. `Runs` has what every run keeps. `Comparison` and `Engine` are recovery and
  commit over two live nodes whose calls may be lost before or after they took effect unless
  the link is healthy; each is proved to take only steps of the machine. `Coordinators` and
  `Publication` are built on them, and `Guarantees` holds what clients may rely on over many
  calls. What a request does to the data, and which requests are accepted, is also stated
  without any of these functions (`Reference.Results`, `Ledgers.Refusal`).
- **Installing a copy.** `Histories` replays a complete journal, `Materialized` transfers the
  data of a checkpoint without its journal, and `Snapshots` pages and restores SQL tables.
- **The transition journal.** `Transitions` describes what each revision was used for;
  `Replays` is the merge that re-validates the two tables on every read, for arbitrary
  tables; `Journals` has the operations; `TransitionLaws` proves what every run keeps;
  `TransitionAnswers` says what each operation accepts and what a completed transition proves
  about the run behind it.
- **The vault.** `Vaults` follows the database key and its two sidecars through every file
  step of opening, migrating, rotating and enrolling.
- **Algorithms.** `Numerals`, `Base32`, `Crc` and `RecoveryCodes` for recovery codes,
  `RateLimits` for the token bucket, `CivilDates` for timestamps.

Representation choices that hold throughout:

- Digests, checksums of stored rows, signatures, key derivation and sealing are ideal: a
  digest is represented by what it was taken of, a derived key by its inputs, and a seal
  opens with its own key and purpose only. A captured changeset takes the view it was
  captured on to the view recorded with it.
- Random tokens and generations are parameters; where freshness matters it is stated
  (`Pairs.Unused`). Clocks are parameters. A transaction is atomic.
- JSON text enters only through its length, which the size limits and page budgets use.
- A node is taken as never recovered by an authority, so recovery admission always passes.

Four properties turned out not to hold of the code as stated, and each has its exact
condition: an abort leaves the transition journal readable if and only if its id and target
are unused (`TransitionLaws.AbortKeeps`); an abort names a completed request exactly when its
own target does (`TransitionLaws.CompletedStaysUntouchedIff`); a committed key-slot plan
leaves the vault safe if and only if its handle held the database key (`Vaults.ApplyIsSafeIff`);
and the coordinator of a reachable, idle pair accepts what a commit accepts if and only if no
prepared row of another request holds the operation id (`Coordinators.AcceptedUnlessContested`).
For each there is a lemma with a concrete input on which the property fails.

## Model

| member | source | states |
|---|---|---|
| Reference.ExecuteAll | replication/fixed-pair/src/reference.rs:97-116 | running a request in order fails exactly if some feature is put while its place is absent; otherwise a place has the name the last change naming it gave, a feature the content last put with its place not deleted since, and all else is as before |
| Reference.ExecuteMeans | replication/fixed-pair/src/reference.rs:97-116 | the recursive definition of a request gives the one view described by its changes alone, and fails exactly on a missing place |
| Reference.ResultsAreUnique | replication/fixed-pair/src/reference.rs:97-116 | the description admits only one view |
| Reference.ExecuteKeepsForeignKeys | replication/fixed-pair/src/reference.rs:92-116 | every request leaves a view in which each feature names an existing place |
| Reference.RequestBytes | replication/fixed-pair/src/reference.rs:46-79 | the bytes fed to the hash are the domain tag, the count and each change as tag and length-prefixed texts |
| Reference.FingerprintIdentifiesRequest | replication/fixed-pair/src/reference.rs:46-79 | two requests feed the hash the same bytes if and only if they are the same ordered changes |
| Ledgers.CheckpointFixesHistory | replication/fixed-pair/src/checkpoint.rs:161-251 | equal journal digests at a sequence mean equal journals up to it |
| Ledgers.PrepareKeeps | replication/fixed-pair/src/lib.rs:312-358 | prepare keeps the journal a chain of linked views with distinct operation ids and at most one pending row |
| Ledgers.StageKeeps | replication/fixed-pair/src/lib.rs:359-383 | stage keeps the chain, and changes it only by adding the next sequence as a prepared row |
| Ledgers.DecideKeeps | replication/fixed-pair/src/lib.rs:384-395 | decide keeps the journal and its bodies |
| Ledgers.ApplyKeeps | replication/fixed-pair/src/lib.rs:396-433 | apply keeps the chain and settles only the last row, on the primary only if decided |
| Ledgers.AbortKeeps | replication/fixed-pair/src/lib.rs:434-450 | abort keeps the chain and removes only a prepared last row |
| Ledgers.CaptureBaseKeeps | replication/fixed-pair/src/publication.rs:167-195 | a capture changes the slot only, and only for the present quiescent checkpoint |
| Ledgers.ConfirmBaseKeeps | replication/fixed-pair/src/publication.rs:197-213 | a confirmation changes only a captured slot of the same proposal |
| Ledgers.ActivateKeeps | replication/fixed-pair/src/publication.rs:134-155 | an activation moves the base only to the confirmed checkpoint, inside the applied history |
| Ledgers.PrepareAnswers | replication/fixed-pair/src/lib.rs:312-358 | every answer of prepare: a new request is accepted exactly if it names existing places, passes the checks, fits a page and a sequence is left, with nothing pending and no publication half way; a known one is repeated, refused as reused or called historical |
| Ledgers.StageMeans | replication/fixed-pair/src/lib.rs:359-383 | staging succeeds exactly for a stored row or the next one continuing the view, and then the row is stored |
| Ledgers.DecideMeans | replication/fixed-pair/src/lib.rs:384-395 | a decision succeeds exactly for a stored operation, which can then no longer be aborted; nothing else changes |
| Ledgers.ApplyMeans | replication/fixed-pair/src/lib.rs:396-433 | applying succeeds exactly for a decision on the stored row of that body, on the primary only its own; the row is then applied |
| Ledgers.AbortMeans | replication/fixed-pair/src/lib.rs:434-450 | an abort succeeds exactly unless the operation is stored and committed, and removes only a row pending under it |
| Ledgers.ConfirmMeans | replication/fixed-pair/src/checkpoint.rs:324-340 | a confirmation succeeds exactly on a quiescent secondary at that checkpoint, which becomes its marker |
| Ledgers.QuarantineMeans | replication/fixed-pair/src/checkpoint.rs:353-365 | quarantine takes marker and generation only, and every proposal bound to the former generation is refused |
| Ledgers.CaptureBaseMeans | replication/fixed-pair/src/publication.rs:167-195 | a capture succeeds exactly for the proposal in the slot or, into a free slot, for the present checkpoint within the quota |
| Ledgers.ActivateMeans | replication/fixed-pair/src/publication.rs:134-155 | an activation succeeds exactly for the confirmed record and never moves the base back |
| Tables.ByOperation | replication/fixed-pair/src/journal/store.rs:43-53 | the row found for an operation is the ledger entry of that operation, or none is stored |
| Tables.GetReceipt | replication/fixed-pair/src/receipts.rs:97-127 | a receipt lookup answers with the applied entry of the operation, or none |
| Tables.ValidateEntry | replication/fixed-pair/src/receipts.rs:158-174 | an applied entry has exactly its own receipt, an unapplied one has none |
| Tables.JournalHead | replication/fixed-pair/src/journal.rs:124-155 | a head is given exactly when the rows above the base have no gap, and then with their true length |
| Tables.ReceiptPrefix | replication/fixed-pair/src/checkpoint.rs:97-142 | the receipts digested are those of sequences 1 to n, each present and in order |
| Tables.Calculate | replication/fixed-pair/src/checkpoint.rs:161-251 | computed from the base or from the start, the checkpoint is that of the whole applied history; for arbitrary tables success means linked applied rows with receipts |
| Tables.CurrentCheckpoint | replication/fixed-pair/src/checkpoint.rs:265-284 | the current checkpoint also matches the application data and the receipt count |
| Tables.VerifiedView | replication/fixed-pair/src/checkpoint.rs:299-305 | a view is admitted exactly when the stored marker is the current checkpoint |
| Tables.ValidatePublication | replication/fixed-pair/src/publication.rs:63-85 | the published slot is reported exactly if its copied data and receipts are those of its checkpoint |
| Tables.ValidatePage | replication/fixed-pair/src/journal.rs:81-111 | page validation accepts exactly the pages that continue the cursor within row and byte limits |
| Tables.JournalPage | replication/fixed-pair/src/journal.rs:191-224 | for a current head the page holds the next rows, as many as the budgets allow, and is empty only at the end |
| Nodes.WriteRow | replication/fixed-pair/src/journal/store.rs:92-111 | a row is stored exactly if its key is valid and neither its sequence nor its operation belongs to another row |
| Nodes.InsertReceipt | replication/fixed-pair/src/receipts.rs:133-154 | applying stores the receipt of the entry; an equal one may be there already, a different one never is replaced |
| Nodes.Node.constructor | replication/fixed-pair/src/lib.rs:199-283 | a new node holds the empty ledger |
| Nodes.Node.Prepare | replication/fixed-pair/src/lib.rs:312-358 | the tables change as PrepareOn changes the ledger; on the primary the answer and the new ledger are stated by the request and the journal for every case, without PrepareOn |
| Nodes.Node.Stage | replication/fixed-pair/src/lib.rs:359-383 | the tables change as StageOn changes the ledger, with its answer |
| Nodes.Node.Decide | replication/fixed-pair/src/lib.rs:384-395 | the tables change as DecideOn changes the ledger, with its answer |
| Nodes.Node.Apply | replication/fixed-pair/src/lib.rs:396-433 | view, row, receipt and read marker change together as ApplyOn changes the ledger |
| Nodes.Node.Abort | replication/fixed-pair/src/lib.rs:434-450 | the tables change as AbortOn changes the ledger, with its answer |
| Nodes.Node.GetReceiptOf | replication/fixed-pair/src/receipts.rs:217-230 | receipt lookup answers alike whether the row is present or was deleted below the base |
| Nodes.Node.CompletedResult | replication/fixed-pair/src/receipts.rs:231-242 | a completed request is answered from its receipt; another request under its id is an error |
| Nodes.Node.GetPage | replication/fixed-pair/src/journal.rs:191-224 | for its own head a node serves the next ledger entries, never an empty page before the end |
| Nodes.Node.GetCheckpointAt | replication/fixed-pair/src/checkpoint.rs:310-312 | the checkpoint of any applied prefix at or above the base is that of the history |
| Nodes.Node.AdmittedView | replication/fixed-pair/src/checkpoint.rs:316-322 | a secondary shows its view exactly while its marker equals its checkpoint |
| Nodes.Node.ConfirmCheckpoint | replication/fixed-pair/src/checkpoint.rs:324-340 | the read marker is set exactly to an equal current checkpoint with nothing pending |
| Nodes.Node.Quarantine | replication/fixed-pair/src/checkpoint.rs:353-365 | quarantine removes the marker and changes the generation, nothing else |
| Nodes.Node.CaptureBase | replication/fixed-pair/src/publication.rs:167-195 | the slot is filled as CaptureBaseOn says; a repeated capture is answered from the slot |
| Nodes.Node.ConfirmBase | replication/fixed-pair/src/publication.rs:197-213 | the slot is confirmed as ConfirmBaseOn says |
| Nodes.Node.ActivatePublishedBase | replication/fixed-pair/src/publication.rs:134-155 | the base moves as ActivateOn says; recomputed on the new base the checkpoint is unchanged |
| Nodes.Node.DeleteRows | replication/fixed-pair/src/publication.rs:366-424 | exactly the asked rows at or below the base are gone; the history is as it was |
| Pairs.StepKeeps | replication/fixed-pair/src/lib.rs:627-753 | every durable step of commit, recover, publication or activation keeps: the secondary journal is a prefix, it applied only what the primary decided, slots agree, the read marker is current |
| Runs.EveryRunIsSafe | replication/fixed-pair/src/lib.rs:627-753 | after any run of such steps from an empty pair, with crashes and lost replies anywhere, decided entries are on both copies and the primary applied nothing the secondary had not |
| Runs.RunGrows | replication/fixed-pair/src/lib.rs:312-450 | over any run nothing decided is removed and applied data never shrinks |
| Runs.AcknowledgedIsDurable | replication/fixed-pair/src/lib.rs:734-753 | a body applied on both copies stays on both for the rest of any run |
| Runs.DecidedOnce | replication/fixed-pair/src/lib.rs:318-356 | an operation id is decided at no more than one sequence over a whole run |
| Runs.LeadsKeeps | replication/fixed-pair/src/lib.rs:627-753 | whatever steps an engine call took, both invariants and all decided data are kept |
| Runs.ViewIsLineage | replication/fixed-pair/src/lib.rs:396-433 | the view after n entries is the execution of the first n requests, in order and each once |
| Runs.AdmittedViewIsCommitted | replication/fixed-pair/src/checkpoint.rs:299-308 | an admitted view is the replay of requests that are decided or applied on the primary |
| Runs.AdmissionSurvives | replication/fixed-pair/src/checkpoint.rs:306-365 | once confirmed, admission survives every step but quarantine or another copy |
| Runs.QuarantineHolds | replication/fixed-pair/src/checkpoint.rs:353-365 | after a quarantine no run makes the secondary readable before a confirmation, and proposals of its former generation are refused |
| Runs.PreparedIsStageable | replication/fixed-pair/src/publication.rs:237-296 | no entry prepared on the primary is refused at stage by a half-finished publication |
| Runs.ActivationIsTransparent | replication/fixed-pair/src/publication.rs:134-155 | activation leaves checkpoint, length, receipts and entries unchanged |
| Comparison.CompareBases | replication/fixed-pair/src/lib.rs:668-686 | bases are accepted only if they lie on one history, and then everything below both is equal |
| Comparison.ComparePage | replication/fixed-pair/src/lib.rs:688-705 | one round of the comparison advances, and finds rows equal or reports divergence |
| Comparison.Compare | replication/fixed-pair/src/lib.rs:634-709 | before any change, over a healthy link, the check accepts exactly the nodes whose journals agree and whose bases lie within the other history; it finds the common applied prefix |
| Engine.Forward | replication/fixed-pair/src/lib.rs:721-726 | a committed row is applied on both nodes, or the attempt stops without losing or committing anything |
| Engine.Backward | replication/fixed-pair/src/lib.rs:718-720 | a prepared row is taken back on both nodes, secondary first |
| Engine.Replay | replication/fixed-pair/src/lib.rs:710-728 | the replay ends with both nodes holding exactly what the primary had committed and counts the rows rolled forward |
| Engine.Recover | replication/fixed-pair/src/lib.rs:627-733 | over a healthy link recovery succeeds exactly when the nodes belong together; it ends with both fully applied and equal and the secondary admitted; it commits nothing new; unrelated nodes are left untouched |
| Engine.EveryRunIsRecoverable | replication/fixed-pair/src/lib.rs:627-733 | after every run that keeps the two copies, recovery over a healthy link succeeds |
| Engine.RecoverableIff | replication/fixed-pair/src/lib.rs:668-686 | for any attached secondary, recovery needs exactly that the primary base lies within what it applied |
| Engine.Commit | replication/fixed-pair/src/lib.rs:734-753 | an answer means this request is applied on both nodes at the named sequence; a failure leaves at most this request committed; over a healthy link a request is refused exactly for one of seven stated reasons, answered with its sequence if it is there, and else applied next with the view it describes |
| Engine.CommitObeys | replication/fixed-pair/src/lib.rs:734-753 | the same of a commit on a settled primary: which requests are accepted, which refused and why, and what is applied |
| Coordinators.Coordinator.New | replication/fixed-pair/src/coordinator.rs:71-88 | a coordinator is made exactly for a fixed primary, and starts without write permission |
| Coordinators.Coordinator.Report | replication/fixed-pair/src/coordinator.rs:89-100 | write permission is reported exactly within the second after a verified reconciliation, and else why not |
| Coordinators.Coordinator.Reconcile | replication/fixed-pair/src/coordinator.rs:107-117 | writes are admitted exactly after a complete recovery with no publication half way, and the capabilities say so |
| Coordinators.Coordinator.Unavailable | replication/fixed-pair/src/coordinator.rs:118-135 | a failure is called not accepted only if the operation is not committed |
| Coordinators.Coordinator.Judge | replication/fixed-pair/src/coordinator.rs:145-161 | a request refused up front is one that is not committed; over a healthy link it is refused exactly if it is invalid or its id belongs to another request in the journal |
| Coordinators.Coordinator.Conclude | replication/fixed-pair/src/coordinator.rs:184-201 | over a healthy link the request is applied and answered with the next sequence; every failure from the decision on is reported unknown |
| Coordinators.Coordinator.Write | replication/fixed-pair/src/coordinator.rs:136-202 | success means applied on both copies; not accepted means not committed and never decided; nothing but this request is committed; over a healthy link the answer is fixed: 400 for an invalid or conflicting request or a constraint violation, 503 with its outcome for what cannot be served, else the sequence |
| Coordinators.AbandonedIdIsRefused | replication/fixed-pair/src/coordinator.rs:145-156 | concrete inputs for which a request that a commit accepts is refused, because an abandoned prepared row holds its id |
| Coordinators.AcceptedUnlessContested | replication/fixed-pair/src/coordinator.rs:145-202 | with both copies reachable and no publication half way, a request that a commit accepts is accepted if and only if no prepared row of another request holds its id |
| Guarantees.RetriesAnswerAlike | replication/fixed-pair/src/receipts.rs:73-92 | an answered request is answered alike for ever and commits nothing more; a different request under its id is refused |
| Guarantees.RefusedStaysOut | replication/fixed-pair/src/coordinator.rs:118-202 | a request reported not accepted is on neither copy after any later recoveries and other requests |
| Guarantees.AnchoringIsTransparent | replication/fixed-pair/src/checkpoint.rs:161-251 | with any prefix as base and any rows below it deleted: same checkpoint, length, receipts, and the same answers to every list of later requests |
| Guarantees.SnapshotRejoins | replication/fixed-pair/src/lib.rs:668-674 | a secondary refused for lying below the base can be recovered once a checkpoint of the history is installed on it |
| Publication.Choose | replication/fixed-pair/src/publication.rs:258-283 | the proposal to carry on with exists exactly while the generations in the slot are the nodes own |
| Publication.PublishBase | replication/fixed-pair/src/publication.rs:258-296 | on success both slots hold one confirmed record, of the proposal underway or of the present checkpoint; over a healthy link it completes exactly within the quota and with the generations named, from any interruption |
| Publication.ActivateBase | replication/fixed-pair/src/publication.rs:237-257 | over a healthy link activation succeeds exactly when both slots hold one confirmed current record; both bases are then that checkpoint and the data is unchanged |
| Histories.ReplayHistory | replication/fixed-pair/src/journal.rs:18-48 | a replay succeeds exactly on well-formed applied histories and leaves a node that holds just that history |
| Materialized.BuildChunk | replication/fixed-pair/src/materialized.rs:267-344 | every page holds the next rows, as many as the limits allow, and is empty only at the end |
| Materialized.InsertItemsMean | replication/fixed-pair/src/materialized.rs:439-529 | staged rows can be installed exactly if no key, sequence or operation occurs twice and every feature follows its place; the data is then what the rows say |
| Materialized.Target.Begin | replication/fixed-pair/src/materialized.rs:348-391 | a transfer starts exactly into an empty idle secondary without a published slot, and an unfinished one resumes exactly for its own manifest and generation; a finished one only where the data is that of the checkpoint |
| Materialized.Target.Receive | replication/fixed-pair/src/materialized.rs:392-438 | a chunk is taken exactly if it is next or repeats held rows; staged rows stay a gap-free prefix with exact counts; a refused chunk changes nothing |
| Materialized.Target.Finish | replication/fixed-pair/src/materialized.rs:439-529 | success means live data and receipts are those of the manifest checkpoint; failure changes nothing; the rows of a history install exactly that history |
| Materialized.Target.Cancel | replication/fixed-pair/src/materialized.rs:530-543 | cancelling drops the staging and leaves live data |
| Materialized.TransferRebuilds | replication/fixed-pair/src/materialized.rs:267-344 | rows that list a view and the receipts of a history in the order of the source rebuild both exactly |
| Materialized.Install | replication/fixed-pair/src/network.rs:286-337 | from the start or from where an earlier attempt stopped, the rows of the checkpoint of a history always get through and leave a node that holds that history; whatever is installed is what was announced |
| Snapshots.Fill | replication/fixed-pair/src/sql_snapshot.rs:224-233 | a page takes at least one row, as many as the limit and its byte budget allow |
| Snapshots.Pages | replication/fixed-pair/src/sql_snapshot.rs:216-245 | cutting ends; pages are not empty, respect every limit, and joined are the exported rows; it fails exactly on a bad limit, row or count |
| Snapshots.Scan | replication/fixed-pair/src/sql_snapshot.rs:529-567 | a scan gives the manifest of the rows exactly within the quotas and with intact references |
| Snapshots.Receiver.Begin | replication/fixed-pair/src/sql_snapshot.rs:568-600 | a transfer starts exactly into empty tables or resumes the same one, if complete only while the tables still show it |
| Snapshots.Receiver.Receive | replication/fixed-pair/src/sql_snapshot.rs:601-665 | a page is taken exactly if it is next or repeats held rows; a refused page changes nothing |
| Snapshots.Receiver.Finish | replication/fixed-pair/src/sql_snapshot.rs:671-749 | success is exactly a complete transfer whose rows, inserted and scanned again, are the announced content, in key order; failure changes nothing |
| Snapshots.InsertMeans | replication/fixed-pair/src/sql_snapshot.rs:671-749 | inserting keeps the rows in key order, adds just the row, and fails exactly on a taken key |
| Snapshots.Transfer | replication/fixed-pair/src/sql_snapshot.rs:216-781 | pages offered in any order with repeats: the transfer finishes exactly when the order works through all of them, and then the tables scan to the source manifest |
| Transitions.OpenHeadIsLast | replication/recovery/src/transition.rs:766-814 | an open decision is always the last revision used |
| Replays.ReadAborts | replication/recovery/src/transition.rs:671-740 | the abort scan accepts exactly bounded tables of valid, bound, signed aborts with no id or target used twice |
| Replays.ReplayBurned | replication/recovery/src/transition.rs:746-764 | a never-decided abort is accepted exactly at the next revision with no open decision |
| Replays.ReplayDecided | replication/recovery/src/transition.rs:583-618 | a history row is accepted exactly if it continues the effective head at the next revision |
| Replays.Read | replication/recovery/src/transition.rs:552-644 | whatever the tables hold, a read that succeeds has found slots that they hold exactly and that form a right history; tables that hold such slots are accepted |
| Replays.SameRowsSameSlots | replication/recovery/src/transition.rs:552-644 | the two tables determine the use of every revision |
| Journals.Journal.constructor | replication/recovery/src/transition.rs:508-518 | a new journal holds no slots and no format marker |
| Journals.Journal.Load | replication/recovery/src/transition.rs:547-551 | a read answers with the history of the slots exactly when a replay accepts them |
| Journals.Journal.Decide | replication/recovery/src/transition.rs:815-881 | the tables change as DecideOn changes the slots, and stay lawful |
| Journals.Journal.Acknowledge | replication/recovery/src/transition.rs:993-1034 | the tables change as AcknowledgeOn changes the slots; success sets the flag of that participant alone and leaves the other flag, the completion and every other slot |
| Journals.Journal.Complete | replication/recovery/src/transition.rs:1036-1074 | the tables change as CompleteOn changes the slots, and stay lawful |
| Journals.Journal.Cancel | replication/recovery/src/transition.rs:1117-1223 | the tables, head and format marker change as AbortOn changes the slots, and stay lawful |
| Journals.Journal.FetchCompleted | replication/recovery/src/transition.rs:907-925 | proof of completion is given exactly for the effective head when complete and acknowledged by both |
| Journals.Journal.FetchAbort | replication/recovery/src/transition.rs:1235-1258 | an abort is found by the request alone, exactly if one is stored and the journal is readable under the policy; a readable journal holds at most one for it |
| TransitionLaws.DecideKeeps | replication/recovery/src/transition.rs:815-881 | a decision leaves a state that the replay accepts |
| TransitionLaws.AcknowledgeKeeps | replication/recovery/src/transition.rs:993-1034 | an acknowledgement leaves a state that the replay accepts |
| TransitionLaws.CompleteKeeps | replication/recovery/src/transition.rs:1036-1074 | a completion leaves a state that the replay accepts |
| TransitionLaws.AbortKeeps | replication/recovery/src/transition.rs:1117-1223 | a recorded abort leaves a state that the replay accepts if and only if its id and its target were unused by earlier aborts |
| TransitionLaws.EveryRunIsLawful | replication/recovery/src/transition.rs:552-644 | every state of every run is lawful, and readable when its aborts are fresh |
| TransitionLaws.RunExtends | replication/recovery/src/transition.rs:1172-1222 | over every run revisions are only appended and a completed or cancelled one never changes |
| TransitionLaws.ConsumedIsInterval | replication/recovery/src/transition.rs:552-644 | consumed revisions are exactly the interval from the initial one to the head |
| TransitionLaws.CancelledIsNeverDecided | replication/recovery/src/transition.rs:845-848 | a cancelled request is never decided later and no request is decided twice |
| TransitionLaws.OneChain | replication/recovery/src/transition.rs:766-814 | records not cancelled form one chain: complete before the next, each starting from the previous target with the same two nodes, targets strictly increasing |
| TransitionLaws.DecideThenCancel | replication/recovery/src/transition.rs:1172-1222 | deciding and cancelling restores the effective head and the completed one and spends one revision |
| TransitionLaws.AbortRetryConverges | replication/recovery/src/transition.rs:1153-1171 | a recorded abort repeated at any later time answers with the same record and changes nothing |
| TransitionLaws.RepeatedAbortIdBlocksReading | replication/recovery/src/transition.rs:1117-1223 | two aborts under one id are both recorded, and then no read succeeds |
| TransitionLaws.RepeatedAbortIdExample | replication/recovery/src/transition.rs:729-736 | concrete inputs for which that happens |
| TransitionLaws.CompletedStaysUntouchedIff | replication/recovery/src/transition.rs:1172-1196 | an abort names a completed request exactly when its own target id does |
| TransitionLaws.CompletedCanBeNamed | replication/recovery/src/transition.rs:1172-1196 | concrete inputs for which an abort names a completed request |
| TransitionAnswers.DecideMeans | replication/recovery/src/transition.rs:815-881 | a request is decided exactly if it is valid, its id unused, it continues the journal, is signed for the present time and admitted; it takes the next revision with nothing acknowledged |
| TransitionAnswers.AcknowledgeMeans | replication/recovery/src/transition.rs:993-1034 | an acknowledgement is taken exactly from a participant of the current decision with evidence, and sets its own flag alone |
| TransitionAnswers.CompleteMeans | replication/recovery/src/transition.rs:1036-1074 | a completion is recorded exactly for the open decision both participants acknowledged, and changes nothing else |
| TransitionAnswers.AbortMeans | replication/recovery/src/transition.rs:1117-1223 | an abort is recorded exactly if valid, signed now, admitted, within the limit and naming the open decision or the next revision; it cancels just that |
| TransitionAnswers.TransitionCompletes | replication/recovery/src/transition.rs:815-1074 | a valid new request decided, acknowledged by both in either order and completed takes one revision and is the head in force |
| TransitionAnswers.CompletionIsEarned | replication/recovery/src/transition.rs:1018-1074 | over every run of a new journal a completed transition was decided, acknowledged by its primary and by its secondary, and completed, each by an operation of the run |
| TransitionAnswers.SlotsAreEarned | replication/recovery/src/transition.rs:815-1223 | over every run each slot says only what operations of the run did |
| TransitionAnswers.DecidedIsSound | replication/recovery/src/transition.rs:815-881 | every decision is for two different nodes moving to one target beyond the anchor under one plan, at its own revision |
| TransitionAnswers.LastCompletedAt | replication/recovery/src/transition.rs:552-644 | the completed head reported is the last complete decision in force |
| Vaults.Disk.Create | src/vesta.rs:111-136 | the three files change as CreateOn says after any number of steps |
| Vaults.Disk.Open | src/vesta.rs:151-180 | the files change as OpenOn says after any number of steps |
| Vaults.Disk.Migrate | src/vesta.rs:951-982 | the files change as MigrateOn says after any number of steps |
| Vaults.Disk.Recover | src/vesta.rs:991-1041 | the files change as RecoverOn says after any number of steps |
| Vaults.Disk.Apply | src/vesta.rs:489-494 | one slot of the sidecar is replaced and the other kept |
| Vaults.Disk.RemoveRecovery | src/vesta.rs:617-624 | the recovery slot alone is removed |
| Vaults.CreateIsSafe | src/vesta.rs:1104-1140 | creation commits a safe vault or leaves nothing that blocks another try |
| Vaults.OpenKeepsSafe | src/vesta.rs:151-180 | the committed passphrase and no other opens, and clears a staged sidecar; cut short anywhere the vault stays safe under it |
| Vaults.PlansHoldHandleKey | src/vesta.rs:446-478 | rotation succeeds exactly with the committed passphrase and the database key and plans the new passphrase; other plans are as good as the handle |
| Vaults.RotationTakesEffect | src/vesta.rs:446-494 | after a committed rotation the new passphrase opens and the old one does not unless equal; key, cost and recovery slot stay |
| Vaults.SetPassphraseTakesEffect | src/vesta.rs:502-538 | from a handle of the database key the new passphrase is the only one that opens; from any other handle none does |
| Vaults.EnrollTakesEffect | src/vesta.rs:556-582 | an enrolled code and no other opens the vault, and the passphrase still does; a slot of another key is opened by no code |
| Vaults.RemovalTakesEffect | src/vesta.rs:617-624 | removal succeeds exactly if a code is enrolled; afterwards no code opens and the passphrase still does |
| Vaults.RecoveryResets | src/vesta.rs:502-538 | what a recovery code opens can be given a new passphrase, which then opens alone while the code keeps working |
| Vaults.OpeningMigrates | src/vesta.rs:951-982 | opening a legacy vault moves it to a random key under its passphrase, with a cost at the floor or above it |
| Vaults.CreatedOpens | src/vesta.rs:111-136 | a new vault is opened by its passphrase alone |
| Vaults.ApplyIsSafeIff | src/vesta.rs:489-494 | a committed plan leaves the vault safe if and only if it was made from a handle that holds the database key |
| Vaults.EveryRunIsSafe | src/vesta.rs:446-494 | over every run with a crash at any file step the last committed passphrase opens and every slot holds the one database key |
| Vaults.KeyIsStable | src/vesta.rs:578-624 | once slots are used the key never changes, so plans of that key may be committed in any order |
| Vaults.RecoverySurvives | src/vesta.rs:489-494 | passphrase changes in any interleaving leave the recovery slot and its code working |
| Vaults.StaleHandleLocksOut | src/vesta.rs:991-1041 | a concrete run in which a plan from a legacy handle leaves no passphrase that unlocks |
| Base32.Encode | src/recovery.rs:135-151 | the digits are the number of the bytes with zero padding, though the register keeps 32 bits |
| Base32.Decode | src/recovery.rs:155-169 | the bytes are the number of the digits without the bits that do not fill a byte |
| Base32.RoundTrip | src/recovery.rs:135-169 | decoding an encoding gives the bytes back |
| Crc.Crc16 | src/recovery.rs:173-186 | the loop computes the checksum that feeds one message bit per shift |
| Crc.BurstDetected | src/recovery.rs:173-186 | every change within sixteen consecutive bits changes the checksum |
| RecoveryCodes.Normalize | src/recovery.rs:93-105 | separators are dropped, case and look-alikes folded |
| RecoveryCodes.TypingIsForgiving | src/recovery.rs:93-105 | separators anywhere do not matter, and one character may stand for another exactly if they are the two cases of a letter, or both among O and 0, or both among I, L and 1 |
| RecoveryCodes.Format | src/recovery.rs:66-83 | the text has eight groups and a checksum group and reads back as the code |
| RecoveryCodes.Parse | src/recovery.rs:91-131 | a text is accepted exactly if it spells a payload and a checksum that guards it, with that code |
| RecoveryCodes.OneCodePerText | src/recovery.rs:91-131 | a text stands for at most one code, so formatting and parsing are inverse |
| RecoveryCodes.TypoIsRejected | src/recovery.rs:112-125 | a change within three neighbouring payload letters is rejected; this covers one wrong letter and two neighbours swapped |
| RateLimits.RateLimiter.Allow | services/vesta-broker/src/hardening.rs:58-84 | one request changes the buckets as AllowOn says; only at capacity and only refilled buckets are evicted |
| RateLimits.EvictionIsInvisible | services/vesta-broker/src/hardening.rs:58-84 | over every request sequence of all principals, evicting refilled buckets at any moments gives the answers of never evicting |
| RateLimits.WindowBound | services/vesta-broker/src/hardening.rs:58-84 | in any window a principal is admitted at most burst plus rate times its length |
| RateLimits.RefusedOnlyIfNeeded | services/vesta-broker/src/hardening.rs:58-84 | a request is refused exactly if admitting it would exceed burst plus rate times length in some window opened by it or an earlier request |
| RateLimits.SmallBurstAdmitsNone | services/vesta-broker/src/hardening.rs:58-84 | a burst below one token admits nobody |
| CivilDates.DayNumberCounts | src/meta.rs:404-418 | the reference day count is 0 on the epoch and rises by one with each calendar day |
| CivilDates.CivilIsRight | src/meta.rs:404-418 | every day number converts to a valid Gregorian date with that day number |
| CivilDates.CivilInverts | src/meta.rs:404-418 | the conversion inverts the day count on every date |
| CivilDates.CivilGrows | src/meta.rs:404-418 | later days are later dates |
| CivilDates.NextDayFollows | src/meta.rs:404-418 | the next day number is the next calendar day |
| CivilDates.StampIsRfc3339 | src/meta.rs:388-402 | the fields of a timestamp are in the ranges of section 5.6 of RFC 3339 up to year 9999 and name the instant |

## Left out

- Nodes.Node.Stage: requires that no row deleted below the base had the entry's operation id; the primary never reuses one, so no call of the engine is excluded, but a foreign entry that reuses one is not modelled.
- RecoveryCodes.Parse: inputs are ASCII; the code splits the normalized text by byte index and knows Unicode white space.
- Runs.EveryRunIsSafe: the two copies are the original ones; with a replaced secondary only the part in Pairs.StepKeeps that does not mention both copies is claimed.
- RateLimits.WindowBound: time is real and does not run backwards; floating-point rounding is not modelled, and neither is a bound on the number of buckets, which the code does not promise.
- CivilDates.CivilIsRight: day numbers are unbounded integers; the overflow of the 64-bit sum near its ends is not modelled.
- Vaults.EveryRunIsSafe: one process opens or migrates at a time; two concurrent migrations of one vault are not modelled.
- Snapshots.Transfer: the application view is taken to be determined by the rows, so the state digest and the content digest are both the row sequence.
- Recovered pairs, their activation, membership digests and pinned peers, and the schema-contract and durability-profile comparison in recover.
- The typed commit engine (typed.rs), maintenance, capacity rules and staged snapshots (snapshot_staging.rs), which repeat the machines modelled here.
- Participant loss and successor journals (transition/loss.rs): the corresponding checks are taken to pass.
- Status queries, historical completion lookups and the persisted size limits of journal records.
- Schema creation, catalog checks, legacy receipt migration and node lock files.
- Sockets, TLS, request framing, HTTP routing and the demo programs; only serial execution of requests on a node is used.
- The cryptographic primitives themselves, zeroizing of secrets, and the constant-time comparison of keys.
- Opening a vault read-only or with a raw key; the handle such a call yields is covered by the condition on handles.
- The broker's key management, certificate, search and object-store services, the web console and deployment scripts.
