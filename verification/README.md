# Proofs about the agent's records, delivery and formats

A Dafny model of the parts of the repository where a mistake costs the most: the job engine that
remembers what an agent claimed and did, the delivery of replies across crashes, the byte and text
formats that come from outside, and the joins and indexes that are derived from logs. Code that
changes things in place is a class or a method with loops; what it promises is proved about the
functions those methods are tied to. `dafny verify dfyconfig.toml` checks the whole project.

## What is modelled

- **The job engine** (`Sop`, `SopValidation`, `SopForward`, `JobEngine`, `JobHistory`, `JobRuns`,
  `JobTheorems`, `JobFitting`, `JobExclusive`, `JobBothWays`, `JobForms`, `JobHopeless`, `JobTools`, `SopUpgrade`,
  `SopSince`, `SopExamples`, `UpgradeExamples`). A job holds a position per track, pending action claims
  and an append-only event log; receipts stand beside it. Each handler is one atomic transaction
  (`action_finish` is two), and so is the installation of a definition, which carries the jobs that are
  open to the new version. `Run` is any sequence of transactions, installations anywhere among them, on
  an empty database. Random ids are supplied by the caller and must be unused; inspecting a writer's
  process is an argument. Each event carries a `trail` beside it, history that is not stored: which claim it made,
  rests on or dropped.
- **Replies and their delivery** (`ReplyStore`, `Delivery`, `DeliverySafety`, `DeliveryTheorems`,
  `DeliveryReceipts`, `DeliverySettled`, `DeliveryRecovery`, `DeliveryPasses`, `DeliveryRepeats`,
  `DeliveryCredit`, `DeliveryHopeless`, `DeliveryFailures`, `ReleaseLoop`). The store is a map of reply
  records and of request fences, two writes per change, and the process may die between any two writes and around any call. The records
  service is the job engine's `Run`, so completing a sent action is a step of both machines.
  `ReleaseLoop` holds `recover`, `deliver` and `ensureTeachCheck` as loops, each proved to be a run of
  the machine.
- **Browser inputs** (`BrowserInputs`, `BrowserTheorems`). One pass and one delivery chain over inbound
  records, every write and every awaited call a step of its own, with crashes anywhere.
- **Turn contexts** (`TurnQueue`, `TurnTheorems`). The records service's one active turn and its line of
  waiting turns; a promise is a ticket and `answers` says how each was settled.
- **Formats** (`Crc32`, `Zip`, `ZipRoundTrip`, `SqlTokens`, `SqlSkeleton`, `Csv`, `PathEncoding`).
- **Joins and indexes** (`OutboundJoin`, `OutboundTheorems`, `EvidenceIndex`, `EvidenceTheorems`).

## Where the code does less than its own words

Each of these is proved in the form "it holds exactly when", and where that takes a run or a
definition to show, a lemma gives one at which it fails.

- *A claimed reply is sent at most once.* True in every run without one write: a claimed reply whose
  record is written and whose process dies before the fence is, while the same request id's fence still
  names another conversation. `recover` then settles that other record, and the claimed one is handed
  over at every start that gets past its receipts. `DeliveryRepeats.RepeatsIffBadCut`,
  `DeliveryFailures.BadCutIsReachable`.
- *A process that stopped can be started again.* Not when a claimed reply waits under a request that has
  no fence, which one crash between the two writes of a first reply brings about: `recover` settles it,
  settling throws (stream/store.ts:719-725), and nothing catches that (runtime/index.ts:407), at every
  start. That a claimed reply is not sent twice rests on this dead end: were the reply passed over, it
  would be handed over, settling it would throw, and the next start would hand it over again.
  `DeliveryRecovery.StartEndsIff`, `DeliveryRecovery.EndsForGoodIff`,
  `DeliveryFailures.DeadEndIsReachable`.
- *A receipt that a crash left open is completed at the next delivery* (runtime/loop.ts:1924-1925).
  `deliver` completes every receipt it owes before it sends, and a refused call ends the process, so it
  gets to its sending exactly when no call of theirs is refused. Two are refused for good: that of a
  claim which was reconciled absent before its receipt was written, and that of a step which an upgrade
  has retired meanwhile, even if its observation is recorded already, because the step is looked up
  first. From then on nothing is sent again. `DeliveryPasses.PassReachesSendingIff`,
  `DeliveryHopeless.HopelessReceiptBlocks`, `DeliveryFailures.RetiredReceiptIsReachable`,
  `DeliveryFailures.LostReceiptIsReachable`.
- *What is recorded as sent was sent, and its proof stands.* A confirmation is written down on the reply
  that the request's fence names. That is another conversation's reply after a write that is cut off
  before its own fence while the request has another's, or that takes the fence of a request under
  which another's reply still waits. A refused reply then becomes sent and its action is recorded as
  done, and a sent reply's chunk ids change. `DeliveryCredit.MiscreditsIffMisfences`,
  `DeliveryFailures.RefusedIsCredited`, `DeliveryFailures.ProofChanges`,
  `DeliveryFailures.RecordedWithoutObservation`, `DeliveryFailures.TakenFenceMiscredits`.
- *A settled reply is not sent again.* Not one that is settled while the running delivery still has it
  in its queue, by the confirmation of another conversation's reply: its turn comes all the same.
  `DeliverySettled.SettledReturnsIff`, `DeliveryFailures.TakenFenceMiscredits`.
- *A failed reply may be retried under its request id* (runtime/reply-tool.ts:24, stream/store.ts:639-641).
  In the same conversation the retry is accepted and never sent: the record already exists, capturing it
  again merges into it, and it stays failed while its fence says pending.
  `ReplyStore.AcceptedIsQueuedIff`, `DeliveryTheorems.RetryAfterFailureIsLost`,
  `DeliveryFailures.FailedRetryIsReachable`.
- *A claim is either observed or reconciled absent.* Not one whose track the observation leaves where it
  is: its claim is not cleared. A step may do so under its own definition, and an accepted upgrade may
  move the step of a pending claim to another track, or to where the carried job stands already; there
  is no other way. `JobExclusive.ClaimGoesBothWaysIff`, `JobBothWays.BothWaysIffBegun`,
  `JobExclusive.BothWaysComesFrom`, `JobBothWays.NextUpgradeLetsBothWaysIff`,
  `SopExamples.StayingStepIsAccepted`,
  `UpgradeExamples.UpgradeGoesBothWays`.
- *A step has one pending claim, and finishing it moves the track it claimed.* True until an upgrade
  carries a claim that does not fit the new definition: it may be kept under a track that its step no
  longer moves, and the step be claimed a second time. `JobFitting.UpgradeKeepsFinishIff`,
  `UpgradeExamples.UpgradeAllowsSecondClaim`.
- *Finishing again is recognised* (records/job-tools.ts:296-322). Only while the step is active in the
  definition installed by then; after an upgrade that retired it the repeated call is refused.
  `JobTheorems.RetryIsDoneIffActive`, `UpgradeExamples.RetiredRetryIsRefused`.
- *An upgrade keeps every job well formed.* Only if it adds no track, since nothing initialises one.
  `SopUpgrade.UpgradeKeepsFormIff`, `JobForms.UpgradeRefusesViewsIff`,
  `SopExamples.AddedTrackIsUninitialised`.
- *A rename carries `since` over.* `since` is keyed by track and the rename looks under the position's
  id. A job keeps its times exactly when the renames, read as renames of tracks, send its tracks to
  tracks with the same times, no two to one. `SopSince.UpgradeKeepsTimesIff`,
  `SopExamples.TimeIsLost`; `SopExamples.TimeComesBack` shows that a rename from a track's name alone
  does not decide it. The line beside it compares a pending claim, an object, with a position id, and
  so never does anything.
- *A reading anchored at a response does not see what was published after it.* It does see what was
  published at the very time it was received. `EvidenceTheorems.ResponseIsStableIff`.
- *An entry that does not match its checksum is refused.* Not one whose recorded checksum is zero.
  `ZipRoundTrip.ChangedByteIsRefusedIff`.
- *`csv` reads back what was written.* A last record without a line break is lost when it is a single
  empty field. `Csv.LastWithoutBreakIff`.
- *Encoded identifiers resolve inside the store.* Unless the store is the file system's root.
  `PathEncoding.IdentifiersLeadBelowIff`.

## Model

| member | source | states |
|---|---|---|
| `Sop.OffModelIsIllegal` | records/sop-definition.ts:124-156 | the off_model flag of an observation is exactly the negation of legality, for every step and positions |
| `Sop.Legality` | records/sop-definition.ts:124-135 | the loops find a reason if and only if the step is not legal, and every reason names a track that is in the way |
| `Sop.ApplyObservation` | records/sop-definition.ts:142-156 | the loop moves each track by its first listed move that starts where the track stands, forces the primary to its last target, and flags what was off the model |
| `SopValidation.ValidateSop` | records/sop-definition.ts:24-109 | no fault is found exactly when the definition has every property the loops look for |
| `SopValidation.InitialIsWellFormed` | records/sop-definition.ts:113-115 | a validated definition starts every track at one of its own positions |
| `SopValidation.ObservationKeepsForm` | records/sop-definition.ts:142-156 | an observation, on or off the model, leaves every track at one of its own positions |
| `SopValidation.ViewsExist` | records/sop-definition.ts:158-168 | well-formed positions give a view for every track, showing the stored position |
| `JobTools.JobTools.JobOpen` | records/job-tools.ts:108-137 | opens a job at the initial positions of the latest definition, or refuses for the first reason that applies, changing nothing |
| `JobTools.JobTools.ActionBegin` | records/job-tools.ts:164-201 | claims the primary track of a mapped legal step and logs the intent, or refuses; the invariant of every run is kept |
| `JobTools.JobTools.JobRecordIntent` | records/job-tools.ts:309-343 | reserves the track of a legal intent, or finds it recorded already, or refuses |
| `JobTools.JobTools.FinishReceipt` | records/job-tools.ts:296-306 | first transaction of action_finish: at most one receipt per claim, and a settled claim is recognised by its receipt |
| `JobTools.JobTools.JobRecordObservation` | records/job-tools.ts:309-373 | records an observation once, on a trusted receipt or a collected or verified source, and clears the claims of the tracks that move |
| `JobTools.JobTools.ActionFinish` | records/job-tools.ts:291-308 | the receipt, and only if it was not refused the observation |
| `JobTools.JobTools.ActionReconcileReady` | records/job-tools.ts:237-253 | says whether a claim may be read for absence: its writer is known and gone |
| `JobTools.JobTools.ActionReconcileAbsent` | records/job-tools.ts:254-290 | drops the claim and logs it, or refuses for the first reason that applies |
| `JobTheorems.ReadyMeansReconcilable` | records/job-tools.ts:237-290 | in every run, with a read supplied and an unused source, reconciling as absent is refused or done exactly as the readiness question was answered, and once done the action id is pending nowhere in the database |
| `JobTheorems.PendingOnce` | records/job-tools.ts:186-196 | in every run an action id is pending in one job at most, under one track |
| `JobRuns.TransactKeepsSound` | records/job-tools.ts:108-373 | every handler and every installation keeps the invariant of runs: one making per claim, receipts from claims, observations that rest on receipts, and no pending claim that was dropped |
| `JobTheorems.ObservationHasClaim` | records/job-tools.ts:344-351 | in every run every observation in the log was recorded by some command, and where the definition then in force made its step an agent_action it has a receipt of the same job, step and source, whose action id an earlier action_begin of that step claimed |
| `JobTheorems.OneObservationPerClaim` | records/job-tools.ts:291-369 | in every run a claim yields at most one observation, in any job |
| `JobTheorems.DroppedOnce` | records/job-tools.ts:265-289 | a claim is reconciled absent at most once and is then no longer pending |
| `JobTheorems.PositionsAreReplayed` | records/job-tools.ts:359-371 | from any state of any run up to the next installation, the stored positions are the replay of the observations recorded since, and each off_model flag is the one the replay computes |
| `JobForms.ViewsNeverRefuse` | records/sop-definition.ts:158-168 | under accepted definitions, in every run whose installations add no track, no job is refused a view of its positions |
| `JobForms.UpgradeRefusesViewsIff` | records/migrate.ts:146-216 | after such a run an accepted installation leaves a job it carries without a view of its positions exactly when it adds a track |
| `JobTheorems.ClaimPinsTrack` | records/job-tools.ts:186-196 | from any state of any run up to the next installation, the track of a claim that stays pending stays where it stood, and where the claim found it if it was made since |
| `JobFitting.FinishIsOnPrimary` | records/job-tools.ts:359-369 | in every run whose installations leave fitting claims, a recorded observation of a pending claim's step, now or wherever the other tracks stand by then, puts the claim's track where a listed move leads that started where it stood, and is flagged off the model exactly when another track is not where the step needs it |
| `JobFitting.OneClaimPerStep` | records/job-tools.ts:186-196 | in every such run a step has one pending claim at most |
| `JobFitting.UpgradeKeepsFinishIff` | records/migrate.ts:201-216 | after such a run an installation leaves every pending claim to finish in that way, and on the model if its step asks nothing of other tracks, if and only if each carried claim fits the new definition: its step is an active intent kept under its key, and can be taken from where that track stands |
| `JobTheorems.ObservationFreesUnlessStays` | records/job-tools.ts:362-364 | an observation of a claimed step leaves its claim pending exactly when the step leaves its own track where it is |
| `JobTheorems.RetryIsDoneIffActive` | records/job-tools.ts:291-322 | in every run, finishing a claim again with the same source, however often and late, changes nothing; its receipt is recognised, and its observation if and only if the step is still active in the definition that the job has by then, being refused as an invalid step otherwise |
| `UpgradeExamples.RetiredRetryIsRefused` | records/job-tools.ts:309-322 | a run that records a completion and installs an accepted upgrade retiring its step, after which the same completion is refused |
| `JobHopeless.GoneIsRefused` | records/job-tools.ts:309-322 | under accepted definitions every command on a step that the job's definition has retired is refused |
| `JobHopeless.TransactKeepsGone` | records/migrate.ts:146-166 | no transaction, installations included, makes a retired step of a job active again |
| `JobHopeless.TransactKeepsLost` | records/job-tools.ts:254-306 | once no job holds a claim and there is no such receipt of it, no transaction brings either back |
| `JobBothWays.BothWaysIffStaying` | records/job-tools.ts:265-369 | from any state of any run, as long as nothing is installed, some claim comes to be both observed and reconciled absent if and only if an observed claim is still pending or was dropped already, or a claim comes to be pending whose observation would leave its track standing |
| `JobBothWays.BothWaysIffBegun` | records/job-tools.ts:164-369 | after a run whose installations left fitting claims, that is so if and only if an observed claim is still pending or was dropped already, a pending one would be left standing already, or the begin of a staying step can be accepted in some continuation |
| `JobBothWays.BothWaysAtFirstIffBegun` | records/job-tools.ts:164-369 | from an empty database and with nothing installed later, some claim goes both ways if and only if some run begins a step that would stay in place |
| `JobExclusive.ClaimGoesBothWaysIff` | records/job-tools.ts:265-369 | in any state of any run, a pending claim that is not observed yet and is the first of its step can go both ways before the next installation if and only if its observation would leave its track standing |
| `JobExclusive.BothWaysComesFrom` | records/migrate.ts:146-216 | a run that has both ways contains the begin of a step that would stay in place, or an accepted installation that leaves a pending claim behind |
| `JobExclusive.UpgradeLetsBothWaysIff` | records/migrate.ts:146-216 | where each step has one pending claim at most, not observed yet, an accepted installation lets some claim it carries go both ways if and only if under the new definition the observation of some carried claim would leave its track standing |
| `JobBothWays.EachHasOne` | records/job-tools.ts:186-196 | in every run whose installations leave fitting claims, and in which no staying step is begun and no installation leaves a claim behind, that is so of every job |
| `JobBothWays.NextUpgradeLetsBothWaysIff` | records/migrate.ts:146-216 | so after every such run the next accepted installation lets some claim it carries go both ways if and only if it leaves one behind |
| `UpgradeExamples.UpgradeGoesBothWays` | records/migrate.ts:146-216 | two accepted definitions all of whose steps depart, an accepted upgrade between them, and a run in which a claim begun before it is afterwards both observed and reconciled absent |
| `UpgradeExamples.UpgradeAllowsSecondClaim` | records/job-tools.ts:186-196 | the same upgrade, after which the step of the carried claim is claimed a second time |
| `SopExamples.StayingStepIsAccepted` | records/sop-definition.ts:24-109 | an accepted definition has such a step, a run begins it, and a run without installations has a claim both observed and reconciled absent |
| `JobExclusive.DepartingIsExclusive` | records/job-tools.ts:344-369 | where every active intent of every version installed departs from where it starts, and every installation keeps each pending claim's step under its key and departing from where the carried job stands, no claim is both observed and reconciled absent, in any run |
| `SopForward.ForwardOnly` | records/migrate.ts:146-166 | accepts exactly the versions that keep every track, position or its one rename, and step, and lists exactly the renames owed |
| `JobTools.JobTools.InstallDefinition` | records/migrate.ts:168-222 | installs an accepted definition that may follow the last one and carries its jobs over, recognises one that is installed already, or refuses; the invariant of runs is kept |
| `SopUpgrade.JobTable.Upgrade` | records/migrate.ts:201-216 | applies each rename in turn to every row of the table, and sets the version of the rows of that definition and of no other |
| `SopUpgrade.OwedAreUnchained` | records/migrate.ts:149-158 | no rename target is a rename source in its track |
| `SopUpgrade.OneByOneIsTogether` | records/migrate.ts:202-208 | applying the renames one by one in any order is applying them all at once |
| `SopUpgrade.UpgradeKeepsFormIff` | records/migrate.ts:146-216 | an accepted upgrade maps every well-formed job to a well-formed one if and only if it adds no track |
| `SopExamples.AddedTrackIsUninitialised` | records/migrate.ts:146-216 | an accepted upgrade of an accepted definition, after which a job opened before is refused its views |
| `SopSince.TimesAreOfTracks` | records/job-tools.ts:359-369 | in every run whose installations add no track and move no time, a job has a time for each track of its definition and for nothing else |
| `SopSince.UpgradeKeepsTimesIff` | records/migrate.ts:201-216 | for every job of every run and every accepted installation of its definition, the renames owed, in any order, leave its times as they were if and only if they send the tracks' names, no two to one, to tracks with the same times |
| `SopSince.UnfollowedKeepTimesIff` | records/migrate.ts:210-210 | where no rename leads to a name that one starts from, the times stand exactly when no rename starts from a track's name |
| `SopExamples.TimeIsLost` | records/migrate.ts:210-210 | an accepted upgrade after which the time of an opened job's one track is kept under a name that no track has |
| `SopExamples.TimeComesBack` | records/migrate.ts:210-210 | an accepted upgrade that renames from a track's name and keeps every time |
| `ReplyStore.ReplyFiles.Reply` | stream/store.ts:653-717 | the fence decides, and an accepted reply is captured, the record that exists winning, and then fenced |
| `ReplyStore.ReplyFiles.SettleDelivery` | stream/store.ts:719-739 | settles the record the fence names, and the fence; an unknown request is told |
| `ReplyStore.ReplyFiles.ReleaseHeldReply` | stream/store.ts:742-754 | lets go only a reply that is held |
| `ReplyStore.AcceptedIsQueuedIff` | stream/store.ts:630-717 | an accepted reply is found in the status it was written at exactly when no record of its conversation and request exists in another |
| `DeliverySafety.NextKeepsSafe` | runtime/loop.ts:1067-1075 | every step but a bad cut keeps the invariant: a claimed reply that was handed over is settled, on the wire, or will be settled before the next pass |
| `DeliverySafety.ClaimedHandedAtMostOnce` | runtime/loop.ts:1934-1961 | in every run without a bad cut, crashes between any two writes included, a claimed reply reaches the transport at most once |
| `DeliveryPasses.PassReachesSendingIff` | runtime/loop.ts:1922-1933 | from any idle state a delivery gets to its sending if and only if no call of the receipts it owes, completed one after the other, is refused; otherwise it ends the process |
| `DeliveryRepeats.RepeatsIffBadCut` | runtime/loop.ts:1067-1075 | after any such run a write lets some claimed reply be handed over twice, with no further bad cut, if and only if it is one, as long as the process then gets past its receipts |
| `DeliveryFailures.BadCutIsReachable` | stream/store.ts:653-717 | a run from a new system up to a bad cut, after which the process gets past its receipts |
| `DeliveryTheorems.TextNeverChanges` | runtime/loop.ts:1934-1943 | whatever reached the transport is word for word the reply as it was first written |
| `DeliveryTheorems.TaughtBeforeSaid` | runtime/loop.ts:1850-1900 | a reply of the held conversation reaches the transport only under a recorded teaching or, with a harness that can be asked, an answer of exactly NOTHING_TAUGHT |
| `DeliveryTheorems.SettledForGood` | runtime/loop.ts:1934-1961 | a sent, unknown or failed reply that the running delivery does not have in its queue is never handed over again nor unsettled by anything that follows |
| `DeliverySettled.SettledReturnsIff` | runtime/loop.ts:1934-1961 | in any state of any run, other than in the middle of a completion, a settled reply can be handed over again if and only if the running delivery has it in its queue; in the middle of one, only if |
| `DeliverySettled.SettledAfterStraight` | runtime/loop.ts:1934-1961 | after a run in which no write leaves a waiting reply under another conversation's fence no settled reply is queued, and none is handed over again or unsettled, whatever follows |
| `DeliveryTheorems.RetryAfterFailureIsLost` | stream/store.ts:636-717 | a retry after a failed send in the same conversation is accepted, and whatever follows it is never handed over |
| `DeliveryFailures.FailedRetryIsReachable` | stream/store.ts:636-717 | a run from a new system up to such a retry |
| `DeliveryReceipts.ProofNeverChanges` | runtime/reply-tool.ts:404-411 | in every run in which no write leaves a waiting reply under another conversation's fence, a sent reply keeps its chunk ids, claim and so its proof source |
| `DeliveryReceipts.RecordedMeansObserved` | runtime/reply-tool.ts:396-414 | in every such run a reply annotated as recorded was sent, and its claim's job holds the observation whose source is the proof of the chunk ids now stored |
| `DeliveryCredit.SentWasConfirmed` | runtime/loop.ts:1934-1961 | in every such run a sent reply was itself handed over and confirmed, with the chunk ids now stored |
| `DeliveryCredit.MiscreditsIffMisfences` | stream/store.ts:653-739 | after any such run a write lets a confirmation make another reply sent than the one in flight, or overwrite a sent one's chunk ids, if and only if it leaves a waiting reply under another conversation's fence, as long as the process then gets past its receipts |
| `DeliveryFailures.RefusedIsCredited` | runtime/loop.ts:1943-1961 | a run in which a refused claimed reply becomes sent, with its action about to be recorded, on another reply's confirmation |
| `DeliveryFailures.ProofChanges` | runtime/loop.ts:1943-1961 | a run in which a sent reply's chunk ids are overwritten by a later send |
| `DeliveryFailures.RecordedWithoutObservation` | runtime/reply-tool.ts:394-415 | a run in which a refused reply ends up recorded, with no observation from the proof of its chunk ids |
| `DeliveryFailures.TakenFenceMiscredits` | stream/store.ts:653-717 | a run in which an uncut write takes the fence of a waiting reply's request, its own reply becomes sent without being handed over, and is handed over after that |
| `DeliveryReceipts.RetryAfterCrashMovesNothing` | runtime/loop.ts:1926-1933 | completing a receipt again after its observation was recorded leaves the records database as it is; only the annotation remains if the step is still active, and the process ends if it is not |
| `DeliveryHopeless.HopelessReceiptBlocks` | runtime/loop.ts:1922-1933 | once a stopped or idle process owes the receipt of a retired step, or of a claim no longer pending without one, nothing is ever handed over again and that receipt is never recorded, in any continuation without a misfencing write |
| `DeliveryFailures.RetiredReceiptIsReachable` | runtime/loop.ts:1922-1933 | a run from a new system up to such a receipt: killed before the annotation, the step retired before the next start |
| `DeliveryFailures.LostReceiptIsReachable` | records/job-tools.ts:254-306 | and another: killed before the receipt, the claim reconciled absent before the next start |
| `ReleaseLoop.ReleaseLoop.Recover` | runtime/loop.ts:1067-1075 | the loop is the machine's recovery run over exactly the claimed pending replies, and throws exactly when one of them is under a request without a fence |
| `DeliveryRecovery.StartEndsIff` | runtime/loop.ts:1067-1075 | from any state of any run with the process down, a start gets through its recovery, and any run gets the process up again, if and only if the request of every claimed waiting reply has a fence |
| `DeliveryRecovery.StartClearsClaimsIff` | runtime/loop.ts:1067-1075 | in every clean run a start comes up with no claimed reply left waiting exactly then |
| `DeliveryRecovery.EndsForGoodIff` | stream/store.ts:719-725 | in every clean run a reply's write leaves a process that can never serve again if and only if it is a claimed one, cut off before its request's first fence |
| `DeliveryFailures.DeadEndIsReachable` | stream/store.ts:719-725 | a run from a new system up to such a write |
| `ReleaseLoop.ReleaseLoop.RecordSentAction` | runtime/reply-tool.ts:394-415 | the receipt, the observation and the annotation, in that order, each only if the one before was not refused |
| `ReleaseLoop.ReleaseLoop.Deliver` | runtime/loop.ts:1922-1961 | both loops are a run of the machine: first the receipts owed, then every pending reply handed over, settled by its outcome and completed |
| `ReleaseLoop.ReleaseLoop.EnsureTeachCheck` | runtime/loop.ts:1850-1900 | lets a held reply go or parks it as the machine's teach step does, on either harness |
| `BrowserTheorems.NextKeepsSafe` | runtime/loop.ts:775-834 | every step of the pass, the delivery chain and recovery keeps the invariant that an input a call may have delivered is held back |
| `BrowserTheorems.AtMostOneRelease` | runtime/loop.ts:1370-1374 | in every interleaving all releases an input was given are one and the same |
| `BrowserTheorems.NeverGivenTwice` | runtime/loop.ts:781-830 | an input that a steering call may have delivered, or that has a release, is never steered; the only release it can get is that of the turn it may have reached |
| `BrowserTheorems.UncertainForGood` | runtime/loop.ts:1055-1066 | once an input is uncertain no later delivery, pass or restart steers it, releases it or makes it anything else |
| `TurnQueue.TurnContexts.StartTurn` | runtime/records-tool.ts:132-156 | refuses, activates, queues or cancels a start as the service's state demands |
| `TurnQueue.TurnContexts.EndTurn` | runtime/records-tool.ts:157-163 | only the active release can be ended, and the first in line is activated |
| `TurnQueue.TurnContexts.AbortTurn` | runtime/records-tool.ts:141-149 | a waiting turn leaves the line and is told; any other is not touched |
| `TurnQueue.TurnContexts.InspectOwner` | runtime/records-tool.ts:123-131 | an owner whose generation changed loses its turn; a failed inspection is remembered and changes nothing else |
| `TurnQueue.TurnContexts.DrainTurns` | runtime/records-tool.ts:164-173 | every waiting turn is told in order, and no start is accepted again |
| `TurnTheorems.TurnsAreApart` | runtime/records-tool.ts:88-109 | in every run active and waiting turns share no release and no source, and nothing waits while no turn is active |
| `TurnTheorems.AnsweredAtMostOnce` | runtime/records-tool.ts:132-173 | every start is answered at most once and waits exactly until it is |
| `TurnTheorems.ActiveInArrivalOrder` | runtime/records-tool.ts:118-122 | those made active, followed by those waiting, are exactly the arrivals neither cancelled nor drained, in arrival order |
| `Crc32.TableStepTakesByte` | import/zip.ts:63-81 | the table step is eight bit-serial steps of the CRC-32 of section 8 of RFC 1952 |
| `Crc32.Checksum` | import/zip.ts:75-81 | the loop over the table computes the bit-serial CRC-32 of every buffer |
| `Crc32.ByteStepIsBijective` | import/zip.ts:77-79 | for each byte every register has exactly one register before it |
| `Crc32.OneByteChangesCrc` | import/zip.ts:75-81 | equal-length buffers that differ in one byte have different checksums |
| `Crc32.BurstChangesCrc` | import/zip.ts:75-81 | so do buffers that differ only within four neighbouring bytes |
| `Zip.FindEndOfCentralDirectory` | import/zip.ts:83-89 | the last end record not too far from the end, or none |
| `Zip.Entries` | import/zip.ts:125-149 | the loop reads every record in turn, or reports the first fault |
| `Zip.ReadEntry` | import/zip.ts:151-177 | the bytes the entry names, unpacked and checked, or the first fault |
| `Zip.Open` | import/zip.ts:181-212 | refuses every unaccepted name at once, then a missing messages file, and else keeps the last messages entry and the last entry of each media name |
| `ZipRoundTrip.ReadingUndoesWriting` | import/zip.ts:83-212 | every archive of stored files laid out as the ZIP APPNOTE says is accepted, and each name gives back exactly the bytes written |
| `ZipRoundTrip.NothingElseIsRead` | import/zip.ts:187-197 | every media name of the opened export is one that was written |
| `ZipRoundTrip.ChangedByteIsRefusedIff` | import/zip.ts:151-177 | a stored entry that reads well is refused after any one byte of its data changes if and only if its recorded checksum is not zero |
| `ZipRoundTrip.ChangedBurstIsRefused` | import/zip.ts:171-175 | two data that differ within four neighbouring bytes are not both accepted under one non-zero checksum |
| `SqlSkeleton.SqlSkeleton` | records/check.ts:18-71 | the one-pass walk shows the one token reading of the source, or reports why it has none |
| `SqlSkeleton.SkeletonHasReading` | records/check.ts:18-71 | a source is accepted exactly when it has a token reading |
| `SqlSkeleton.SkeletonIsReading` | records/check.ts:18-71 | any token reading of a source is the one that is shown, so there is at most one |
| `SqlSkeleton.SkeletonKeepsNewlines` | records/check.ts:18-71 | every newline is kept, the text is shorter by two per quoted identifier, and what is left beside blanks is the characters outside comments and quotes, in order |
| `SqlSkeleton.SkeletonIgnoresBodies` | records/check.ts:30-66 | what comments, nested ones included, literals and dollar quotes say between newlines has no say in the result |
| `Csv.Csv` | runtime/browser-evidence-representation.ts:12-27 | the loop is the reader whose properties follow |
| `Csv.ReadingUndoesWriting` | runtime/browser-evidence-representation.ts:16-27 | rows of at least one field over any characters come back exactly, however section 2 of RFC 4180 lets them be quoted and broken |
| `Csv.LastWithoutBreakIff` | runtime/browser-evidence-representation.ts:25-26 | a last record without a break comes back exactly when it is not a single empty field |
| `PathEncoding.ComponentFaults` | stream/encode.ts:44-76 | exactly the faults that apply, each once |
| `PathEncoding.EncodeComponent` | stream/encode.ts:78-89 | the byte loop gives the encoding, or its hashed form when that is too long |
| `PathEncoding.DecodeComponent` | stream/encode.ts:92-106 | the loop decodes every component but the hashed form |
| `PathEncoding.DecodingUndoesEncodingIff` | stream/encode.ts:78-106 | decoding accepts a component exactly when it was not hashed, and then gives the identifier back |
| `PathEncoding.ComponentsDiffer` | stream/encode.ts:26-29 | two identifiers share a component only if both are hashed to one digest, so an encoding never collides with a hashed form |
| `PathEncoding.IdentifiersLeadBelowIff` | stream/encode.ts:108-117 | any list of encoded non-empty identifiers resolves to exactly those components below the store, unless the store is the file system's root |
| `PathEncoding.PathsDiffer` | stream/encode.ts:78-117 | two lists of identifiers that are resolved to one place below the store are the same list, when none of one of them is hashed |
| `OutboundJoin.NearestSend` | import/outbound-link.ts:49-72 | the nearest eligible send, ties broken by id and then by place, with the count of all that were eligible |
| `OutboundJoin.JoinOutbound` | import/outbound-link.ts:77-103 | the loops are the join whose properties follow |
| `OutboundJoin.OrderedIsSorted` | import/outbound-link.ts:33-39 | the order is sorted by moment and id and loses nothing |
| `OutboundTheorems.MarksAreConserved` | import/outbound-link.ts:77-103 | every event, turn and audit row is in exactly one send, as the send or attached to it |
| `OutboundTheorems.JoinIsKept` | import/outbound-link.ts:77-103 | attachments share the conversation and lie inside the tolerance, the counts are the marks read and add up, and a mark is left alone only if every send of an earlier kind in its window already carries its kind |
| `OutboundTheorems.InputOrderHasNoSay` | import/outbound-link.ts:31-39 | when no two marks of a kind share a moment and an id the result does not depend on the order of the input |
| `EvidenceIndex.Evidence.State` | runtime/browser-evidence.ts:94-104 | whichever branch answers, current cache, one change behind or rebuild from an unsorted listing, the answer is the full replay in revision order |
| `EvidenceIndex.Evidence.PrepareDelta` | runtime/browser-evidence.ts:127-134 | no problem is found exactly when each removal names a current item once and each addition is new, well templated and readable |
| `EvidenceIndex.Evidence.Present` | runtime/browser-evidence.ts:135-146 | publishes exactly the new, non-empty and acceptable deltas, appending the change, and else changes no record; readings anchored at earlier publications stay, and one anchored at a response stays exactly when the change is dated later |
| `EvidenceIndex.Evidence.ReadAt` | runtime/browser-evidence.ts:147-155 | a reading at an anchor folds the changes the anchor saw |
| `EvidenceTheorems.AnchorShowsItsMoment` | runtime/browser-evidence.ts:147-149 | a reading anchored at a publication shows the state just after it |
| `EvidenceTheorems.AnchorIsStable` | runtime/browser-evidence.ts:147-149 | and is the same after any later publications |
| `EvidenceTheorems.ResponseIsStableIff` | runtime/browser-evidence.ts:147-149 | a reading anchored at a response is left alone by later publications exactly when each is dated after it was received |
| `EvidenceTheorems.CurrentIsAddedLessRemoved` | runtime/browser-evidence.ts:93-93 | the current set's size is items added less items removed, and its items are distinct |

## Left out

- Values of the wrong JSON type: definitions, items and arguments have their fields; the faults for a field that is not a list, object or string are not modelled. A missing text field is the empty text.
- The patterns of job ids, action ids and source ids, and the refusals that check only those.
- SQL, locks, connections, triggers and privileges: a handler is the change it makes to its rows in one transaction.
- Several definitions installed in one transaction: here they are installed one after the other. A table holds the jobs of one definition, whose name no other definition may share (records/check.ts:153-156). The change triggers and the catalogue guard of an installation are not part of this model.
- The search for a step's pending claim goes through a stored object: its keys are taken in the order in which the database keeps them, shorter first and then by their characters.
- `JobExclusive.UpgradeLetsBothWaysIff`: says nothing of a job in which one step has two pending claims or a pending claim was observed already; such jobs come of an earlier installation or staying step, which `JobExclusive.BothWaysComesFrom` finds and `JobBothWays.EachHasOne` rules out.
- `DeliverySettled.SettledReturnsIff`: in the middle of a completion whether a queued reply is reached depends on the records calls in hand; there only the one direction is stated.
- `DeliveryRepeats.RepeatsIffBadCut`: that the process gets past its receipts is asked of the next start as it stands; a later command may make a refused receipt acceptable.
- `action_bound`, `action_classify`, `job_find`, `job_read` and `job_check`: they search and read what is modelled here and change nothing of their own.
- What `since` means to a reader, and deadlines: times are carried along, not interpreted.
- Positions under a track named like a member of every JavaScript object, such as `constructor`.
- Browser replies, which carry revisions, and the delivery status of channels other than the one a store serves.
- The recovery of open releases, reissued turns and their prompts, and the completion of releases behind a sent reply.
- `BrowserInputs.Next`: the pass also holds a conversation back while an effect in it is uncertain, the chain serves one conversation at a time and begins only while its turn has not ended; the model allows more interleavings than that, so what is proved of it holds of the code.
- A release that store.release refuses for a historical or parked record, which an ordinary browser input is not.
- Two transport calls for an unclaimed reply after a crash: the code allows them and no claim is made about them.
- `ReleaseLoop.ReleaseLoop.Deliver`: nothing else writes while one pass runs; each reply has its own outcome and its own time, and the machine allows writes and crashes between any two steps.
- Entries packed with method 8 are unpacked by a function given from outside; the round trip is about stored entries. The wide directory is read as the code does but not written. Archive comments are not written.
- `Zip.EntryKind`: names are bytes, which agrees with the code for names that are valid UTF-8.
- JavaScript strings are UTF-16 and the strings here are Unicode scalars: in `SqlSkeleton` a character outside the first plane is blanked once and not twice.
- `PathEncoding.DecodeComponent`: what `parseInt` makes of two characters that are not hex digits is given from outside; no encoding contains such a pair.
- The collation of ids in the join is any total order, given from outside.
- What an evidence file, selector, producer or basis is refused for is one bit of the addition; sources and representations are not modelled. A publication is found by its change identity; its message identity is derived from it and never equals another's change identity, because change identities are UUIDs.
- `EvidenceIndex.Evidence.Append`: a capture bumps the version together with its record; an error between the two in a process that lives on would leave the cache behind.
- The page walks of evidence fragments, JPEG sizes, poll, latch and channel resolution: only easy members.
- `runtime/lock.ts`: its check, unlink and create are separate steps, so exclusion between simultaneous starters is not something the code establishes.
