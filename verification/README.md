# Pair execution, proved

A Dafny model of the parts of this repository whose correctness is hardest to see: two Workers that each open
one leg of a mirrored position over a relay that loses messages, while either process may die between any two
durable writes, and the control ledger that decides who may be paired at all.

`dafny verify dfyconfig.toml` checks everything.

| files | what they model |
|---|---|
| `EffectJournal` | the write-ahead journal of broker effects |
| `PairState`, `PairWorker` | what a cell remembers; its handlers as micro-steps, one durable write, relay send, broker call or broker read each |
| `PairDiscipline`, `PairTruth`, `PairEvolution`, `PairMessages`, `PairBelief`, `PairConduct` | what every micro-step keeps |
| `PairNetwork`, `PairSafety`, `PairLimits`, `PairConfirmation`, `PairProbe`, `PairOrphans`, `PairResponses` | the pair over whole runs: safety, its exact limits, confirmation, desired EMPTY, proof probes, attempts a restart loses, answers to the peer and stops as decided |
| `PairPaths`, `PairCell` | `PairExecutionCell` as an object whose handlers are paths of those micro-steps, and its terminating containment pass |
| `Universe`, `UniverseCell` | agreement on discovered universe generations |
| `Sizing`, `DailyLoss`, `PlanBatches`, `PlanStore` | volumes, stops and the mirrored box; the daily loss limit; plan publication and retention |
| `Ledger`, `LedgerEffects`, `LedgerRuns`, `ControlLedger` | pairing tables, what each operation changes, what holds over all operations, and the ledger as an object |
| `Framing` | length-prefixed JSON frames and the nesting scanner |

A run of the pair is any list of actions: a step of either Worker, a delivery (with or without a repeat to come)
or a loss at the head of either channel, a crash, a restart, a tick of a clock, a move of a broker. A step that is
not enabled does nothing, so every list is a run and the theorems quantify over all of them.

## What the environment is assumed to do

- Attempt, proposal and event identifiers are fresh; hashes are injective, so content stands for its hash.
- Each direction of the relay keeps order and may lose or repeat the message at its head. For universe
  agreement it may also reorder.
- An account is used by its own Worker only. Its broker may fill a resting order or remove a position at any
  time. Whether the account is flat is current knowledge when an attempt is created or admitted.
- What an order opened or left resting is visible among the account's positions and orders by the time `order_send`
  returns. A snapshot is complete; its positions are read after the handler that began it, and its orders after them.
- A Worker's clock does not go back between two attempt rows, so the latest row is the last one written.
- A broker is *conclusive* if a non-success receipt comes with no exposure, a market entry is never filled in
  part, and it never rests. The theorems that need this say so, and `PairLimits.BothFlatIffConclusive` shows that
  the both-flat promise needs exactly this. It rests on the two assumptions about visibility and snapshots.
- A handler runs to its end unless the process dies; messages are taken between handlers. The choices the source leaves to clocks,
  quotes, policies, timers and the operator (when to create, admit, close, confirm, protect, stop) are free.
- Allowances bound what a leg loses, and a leg that is stopped exits at its stop.

## Where the code falls short of its own promise

- A broker may report a non-success code for an entry that left exposure behind (a partial immediate-or-cancel
  fill), and an unknown send is read as absent when no *exact* position shows, although orders of the same
  snapshot are not consulted. Either way `rejected` is reported, and the peer may call the pair empty
  (abt/pair_cell.py:6455-6482, 6680-6700). `PairLimits` gives the runs.
- A generation whose acknowledgement is lost splits the pair for good once the leader restarts, or has let the
  candidate go and a catalog is republished, because catalog hashes contain publisher epoch and version (abt/pair_cell.py:1323-1333, 4049-4065).
- A refused attempt is the latest row, and only the latest row is loaded at a restart (abt/pair_cell.py:2863-2870, 6311-6324).
  A follower's live attempt survives its process if and only if nothing was refused while it ran; otherwise it
  is hidden for good. That can cost exposure exactly when the broker is not conclusive (`PairOrphans`). The
  open row itself remains, and stops the Worker as a foreign attempt once it is on another route (abt/pair_cell.py:2951-2980),
  which is outside the model.
- The purge drops a plan at the end of its retention window while validation still accepts it there
  (abt/pair_cell.py:4901-4908, 4927).
- The ledger's own comment bounds a claim's life by that of a reservation or a route; reopening ends it earlier, for
  it drops the claims of live reservations too (abt/controlplane/ledger.py:2230-2241). Pairing stays exclusive all the same.
- A value nested deeper than 128 can be written as a frame but not read (abt/worker/wine_mt5_protocol.py:98-107); `Framing.DeepValueIsSentAndRefused` gives one of each depth.

## Model

| member | source | states |
|---|---|---|
| EffectJournal.AtMostOneCrossing | abt/worker/effect_journal.py:65-75 | over every history of calls, replays included, the send boundary of one effect is crossed at most once, and never again once its row has left `prepared` |
| EffectJournal.RowsAreWriteAhead | abt/worker/effect_journal.py:44-106 | a row's payload is fixed for life, a row that may have been sent never again reads as unsent, and evidence, once there, stays in its state |
| EffectJournal.WorkerEffectJournal.PrepareEffect | abt/worker/effect_journal.py:44-63 | the row's state and the whole new table; a conflicting payload or an empty identifier is refused and changes nothing |
| EffectJournal.WorkerEffectJournal.StartSend | abt/worker/effect_journal.py:65-75 | only a prepared row becomes `send_started`; otherwise an error and no change |
| EffectJournal.WorkerEffectJournal.CompleteEffect | abt/worker/effect_journal.py:100-113 | evidence goes only onto an unresolved row or one already in the same evidence state |
| EffectJournal.WorkerEffectJournal.RecordReceipt | abt/worker/effect_journal.py:77-78 | the completed table with a receipt, or the error |
| EffectJournal.WorkerEffectJournal.RecordObservation | abt/worker/effect_journal.py:80-81 | the completed table with an observation, or the error |
| PairNetwork.AtMostOneBrokerCall | abt/pair_cell.py:6431-6487 | in every run of the pair, with crashes, restarts, losses and repeats: the broker is called at most once per effect, only past a durable `send_started`, with the journaled payload; an entry is a market order of exactly its attempt's symbol and volume, on the leader's side or the mirrored one |
| PairNetwork.RestartTellsTheTruth | abt/pair_cell.py:6549-6598 | a leg whose entry reached the broker is never `expired_not_started`; an attempt row without a leg row has no journal row and no call behind it |
| PairNetwork.RunDisciplined | abt/pair_cell.py:6012-6487 | the write-ahead discipline of both Workers is kept by every sequence of actions, whatever the brokers do |
| PairDiscipline.MoveKeeps | abt/pair_cell.py:6345-6487 | every micro-step of a Worker keeps the order attempt row, leg row, prepared effect, relay intent, `send_started`, call |
| PairDiscipline.ReceiveKeeps | abt/pair_cell.py:6182-6234 | every received message keeps it too, a repeated attempt included |
| PairDiscipline.RecoveryFollowsTheJournal | abt/pair_cell.py:6549-6577 | a leg still pending at a restart becomes `unknown_after_send` if and only if the journal row has crossed the send boundary, and it has whenever the broker was called; otherwise it becomes `expired_not_started` |
| PairDiscipline.StartContainmentKeeps | abt/pair_cell.py:7959-8024 | a containment effect is prepared with its own ticket's payload and never resent once it may have been sent |
| PairTruth.MoveTruth | abt/pair_cell.py:6603-6739 | under a conclusive broker every micro-step keeps: every holding is its attempt's exact order, belongs to a live leg that is neither rejected nor expired nor verified empty, and shows in a snapshot taken after it |
| PairTruth.NoMatchMeansFlat | abt/pair_cell.py:6603-6700 | a snapshot that shows no exact match, or nothing, proves the account flat |
| PairTruth.ReceiveTruth | abt/pair_cell.py:7151-7241 | every received message keeps it |
| PairMessages.NegativeLegIsSettled | abt/pair_cell.py:7848-7905 | a leg recorded rejected, never started or empty has no exposure and no call ahead of it |
| PairMessages.TerminalRowIsSettled | abt/pair_cell.py:8211-8214 | so has every terminal attempt row, refused ones included |
| PairMessages.MoveSaysTrue | abt/pair_cell.py:7107-7149 | a terminal leg status is only ever sent for a settled attempt, and an attempt envelope only after its durable relay intent |
| PairMessages.ReceiveSaysTrue | abt/pair_cell.py:7848-7877 | answers are true: `no_attempt_record` only to a probe and only without a row |
| PairEvolution.MoveEvolves | abt/pair_cell.py:6012-6487 | rows only gain facts; a settled attempt stays settled and gets no further entry call, whatever the broker does |
| PairEvolution.ReceiveEvolves | abt/pair_cell.py:6182-6234 | the same for every message; only an attempt envelope can add a row, and only its own |
| PairBelief.MoveHeard | abt/pair_cell.py:7718-7751 | a peer status in memory was heard or loaded from what was heard; a new verified outcome needs a leg that is verified empty and a peer that cannot have sent |
| PairBelief.ReceiveHeard | abt/pair_cell.py:7151-7241 | a message changes beliefs about its own attempt only, and only to what it says |
| PairSafety.NewlyVerifiedIsFlat | abt/pair_cell.py:7732-7751 | each ground for finalizing is good: a heard terminal status is true, and a leader that never relayed its attempt is alone with it |
| PairSafety.RunConsistent | abt/pair_cell.py:7718-7751 | the pair invariant (true messages in both channels, true beliefs, origins of attempts) is kept over every run with a conclusive broker |
| PairSafety.BothFlatInEveryRun | abt/pair_cell.py:7718-7730 | in every run, an attempt either Worker terminalized as `both_empty_verified` has no position and no order on either account |
| PairSafety.NothingOpensLater | abt/pair_cell.py:7718-7730 | and after any further actions there is still none, and no further entry call for it on either side |
| PairLimits.BothFlatIffConclusive | abt/pair_cell.py:6431-6487 | that promise holds in all runs if and only if the broker is conclusive: a non-success receipt means no exposure, no partial fill, no resting order |
| PairLimits.RefusedWithExposure | abt/pair_cell.py:6455-6482 | for each exposure a non-success receipt may hide, a run in which the leader verifies the pair empty while the follower holds it |
| PairLimits.UnseenExposure | abt/pair_cell.py:6680-6700 | for a partial fill and for a resting order without a receipt, such a run: the snapshot finds no exact position and reads as absent |
| PairConduct.MoveLasts | abt/pair_cell.py:7692-7708 | every micro-step keeps fills, close requests and (but for the leader's own decision) the absence of a confirmation; where a new fill and a new verified-empty come from |
| PairConduct.ReceiveLasts | abt/pair_cell.py:6834-6871 | the same for messages; only a confirmation received in time confirms |
| PairConfirmation.ConfirmationIsSound | abt/pair_cell.py:6780-6852 | in every run and whatever the brokers do: if either side holds a confirmation, both legs were filled by a position that was the only exact match in a snapshot of its own account taken earlier in the run, and the two positions are of one symbol and one volume, on mirrored sides |
| PairConfirmation.FillIsTheUniqueMatch | abt/pair_cell.py:6614-6630 | every filled leg of every run became filled while its Worker acted on a snapshot that its account had shown earlier, and in it exactly one position had the attempt's symbol, side and volume: the one under the leg's ticket |
| PairConfirmation.ClosesOnlyTheOwnedTicket | abt/pair_cell.py:7907-7957 | a close call targets only the ticket its attempt was attributed, and that ticket is such a unique exact match |
| PairConfirmation.FollowerConfirmsInTime | abt/pair_cell.py:6834-6852 | the follower begins to hold a confirmation only by receiving one, while it still wants the attempt active, strictly before its receipt deadline |
| PairConfirmation.CloseRequestIsFinal | abt/pair_cell.py:7692-7708 | once desired EMPTY is set, no continuation of the run sends the entry or the precise protection or takes up a confirmation, across restarts |
| PairConfirmation.EmptyIsSeenOnAFlatAccount | abt/pair_cell.py:7930-7942 | `empty_verified` is recorded only while closing, on a snapshot with neither positions nor orders |
| PairConfirmation.ConfirmedPairWasOpened | abt/pair_cell.py:6603-6680 | under a conclusive broker a confirmed attempt has had a position of its full volume on both accounts |
| PairConfirmation.RunKeepsEvidence | abt/pair_cell.py:6780-6832 | the invariant behind the confirmation is kept over every run |
| PairProbe.ProbeFinishesIffProven | abt/pair_cell.py:7807-7877 | one probe and its answer finish the prober's attempt if and only if the peer's own records prove nothing is open there, also after the peer has reset, restarted or never heard of it |
| PairProbe.AnswerDecides | abt/pair_cell.py:7151-7241 | an answer finishes the attempt exactly when its status is terminal |
| PairProbe.RefusalOrphansLiveAttempt | abt/pair_cell.py:2800-2860 | one refusal, crash and restart of any disciplined follower with a live attempt: nothing is loaded, the row stays open and a probe gets no answer (over runs: `PairOrphans`) |
| PairOrphans.RestartResumesIffNothingRefused | abt/pair_cell.py:2863-2870 | in every run, a crash and restart resume the running attempt if and only if its row is the latest one, and that is if and only if no other attempt was durably refused while it ran; otherwise it is hidden |
| PairOrphans.HiddenForGood | abt/pair_cell.py:2863-2870 | a hidden attempt stays hidden in every continuation of the run: it is never run or ended, makes no further entry call and answers no probe |
| PairOrphans.LeaderHidesNothing | abt/pair_cell.py:6012-6038 | in no run is an attempt of the leader hidden |
| PairOrphans.HidingHappens | abt/pair_cell.py:6311-6324 | under every broker some run hides a live attempt of the follower: the leader finishes, relays its next attempt, the follower refuses it and dies |
| PairOrphans.HiddenIsHarmlessIffConclusive | abt/pair_cell.py:6205-6234 | every hidden attempt of every run has no exposure and no call ahead of it if and only if the broker is conclusive |
| PairResponses.NegativePeerCloses | abt/pair_cell.py:7151-7241 | over runs: a Worker that has taken up from its peer a rejected, expired, inconsistent or empty leg, or the absence of one it asked about, wants EMPTY in memory and row, without a timer, whenever it is idle with that attempt, until the process dies |
| PairResponses.ProtectionIsAsDecided | abt/pair_cell.py:7015-7077 | over runs: every precise-protection call of an attempt modifies the stops of its one filled ticket, to the stop and target of an earlier decision for it, in that order |
| PairResponses.RollbackIsAsTold | abt/pair_cell.py:6885-6919 | over runs: every rollback call does so with the rough stop and target that were read when the peer reported fallback protection |
| PairCell.PairExecutionCell.PersistDesired | abt/pair_cell.py:3325-3339 | desired state and confirmation, in memory and in the row, and nothing else |
| PairCell.PairExecutionCell.PersistLeg | abt/pair_cell.py:3304-3313 | this leg row and nothing else |
| PairCell.PairExecutionCell.BeginLocalClose | abt/pair_cell.py:7692-7708 | desired EMPTY in memory and row and the timer gone, unless there is no attempt or it was set before, and no other field |
| PairCell.PairExecutionCell.RecordObservation | abt/pair_cell.py:6410-6429 | only an unresolved effect is completed as observed |
| PairCell.PairExecutionCell.RunBrokerWrite | abt/pair_cell.py:6431-6496 | the whole new state is that of the micro-steps admission, `send_started`, call, receipt; no other effect's row changes; completed or rejected only with durable evidence |
| PairCell.PairExecutionCell.CrossBoundary | abt/pair_cell.py:6456-6463 | the boundary step: `send_started` or an unclear result without a call |
| PairCell.PairExecutionCell.PrepareAttempt | abt/pair_cell.py:6080-6138 | desired state, leg row, prepared entry of exactly the attempt's symbol, volume and own side, and timer, one durable step after the other |
| PairCell.PairExecutionCell.DispatchAttempt | abt/pair_cell.py:6100-6138 | the leader's relay intent is durable before the envelope leaves; then the leg is marked dispatched |
| PairCell.PairExecutionCell.SendEntry | abt/pair_cell.py:6345-6408 | the write and what its result makes of the leg, the report, the notice and the close |
| PairCell.PairExecutionCell.ConcludeEntry | abt/pair_cell.py:6370-6408 | sent, rejected, expired or unknown by result; a negative one is reported, announced and closed |
| PairCell.PairExecutionCell.MaybeCreateAttempt | abt/pair_cell.py:6012-6138 | nothing unless the leader is free and flat; otherwise the path of micro-steps from the attempt row to the end, keeping the invariant |
| PairCell.PairExecutionCell.HandleAttempt | abt/pair_cell.py:6182-6234 | replay of a known id from its record, durable refusal before it is said, or admission and entry; the invariant is kept |
| PairCell.PairExecutionCell.PersistRejectedAttempt | abt/pair_cell.py:6311-6324 | the refused row is the latest row, then the refusal is said |
| PairCell.PairExecutionCell.AnswerLegStatus | abt/pair_cell.py:7848-7877 | what is answered from the current leg, the row, or the absence of one, status by status; no state changes |
| PairCell.PairExecutionCell.HandlePairEntryConfirmed | abt/pair_cell.py:6834-6852 | confirmed in memory and row when received in time, desired EMPTY when late, otherwise unchanged |
| PairCell.PairExecutionCell.HandlePairEntryFailed | abt/pair_cell.py:6865-6871 | closes the named current attempt and nothing else |
| PairCell.PairExecutionCell.HandlePeerLegStatus | abt/pair_cell.py:7151-7241 | on a current attempt a rejected, expired, inconsistent, empty or asked-for absent peer leg leaves desired EMPTY in memory and row and no timer; an unsolicited absence is ignored, another attempt's status is filed and answered, fallback stops freeze or roll back |
| PairCell.PairExecutionCell.RestoreRoughProtection | abt/pair_cell.py:6885-6919 | at most one new call, the modification of the filled ticket to exactly the given rough stop and target, journaled first; the attempt is closed when it does not complete |
| PairCell.PairExecutionCell.MaybeEmitPairConfirmation | abt/pair_cell.py:6809-6832 | durable confirmation and then its message on exact evidence, notice and close on inexact evidence, otherwise nothing |
| PairCell.PairExecutionCell.MaybeApplyPreciseProtection | abt/pair_cell.py:7015-7077 | from rough protection on a confirmed attempt, at most one new call, the modification of the filled ticket to exactly the given stop and target, journaled first; otherwise frozen or fallback, reported; nothing else changes |
| PairCell.PairExecutionCell.MaybeFinalizeEmpty | abt/pair_cell.py:7718-7751 | the terminal row and the reset exactly when the leg is verified empty and the peer cannot have sent |
| PairCell.PairExecutionCell.MaybeDeclareActive | abt/pair_cell.py:7079-7104 | the attempt is recorded active exactly when the cell is not stopped, the pair is confirmed, ACTIVE is wanted and both legs report one and the same protection; nothing else changes |
| PairCell.PairExecutionCell.SendProofProbe | abt/pair_cell.py:7807-7818 | while the own leg is verified empty and the peer may have sent: one more probe is counted, and the empty leg and the request are said, in that order; otherwise nothing |
| PairCell.PairExecutionCell.Restart | abt/pair_cell.py:2800-2916 | what a restart loads from the rows, followed by the steps of recovery; the invariant is kept |
| PairCell.PairExecutionCell.Recover | abt/pair_cell.py:3580-3617 | no leg row ends the attempt; otherwise the journal classifies the leg and anything not verified active is closed |
| PairCell.PairExecutionCell.UniqueMatch | abt/pair_cell.py:6614-6630 | the only exact symbol, side and volume match, or else no ticket of a match |
| PairCell.PairExecutionCell.AttributeSnapshot | abt/pair_cell.py:6614-6700 | the attribution step of a snapshot: fill, inconsistent, absent, ambiguous or nothing |
| PairCell.PairExecutionCell.ObserveOwnedTicket | abt/pair_cell.py:6701-6739 | protection and close effects become observable and every reason to close is acted on; nothing is sent |
| PairCell.PairExecutionCell.AdvanceConvergence | abt/pair_cell.py:7907-7957 | a cancel of the first resting order first, then a close of the one owned ticket at its volume; verified empty only on a flat account; stopped only with the stop latched |
| PairCell.PairExecutionCell.JournaledEmergencyWrite | abt/pair_cell.py:7959-8024 | a prepared effect is written once; an uncertain one stops; an evidenced one is not resent |
| PairCell.PairExecutionCell.RequestBrokerRead | abt/pair_cell.py:6524-6536 | a containment pass (snapshot, cancel or close, snapshot again, deferral) ends for any answers of scheduler and broker, as a sequence of snapshots and micro-steps, and says which of four ends it reached |
| PairCell.PairExecutionCell.WriteUsesUp | abt/pair_cell.py:8000-8024 | a completed containment write uses up one of the effects not yet sent for the tickets the account holds |
| PairCell.PairExecutionCell.DeferralUsesUp | abt/pair_cell.py:7985-7999 | a deferral uses up one of the effects not yet deferred |
| PairPaths.SettleKeeps | abt/pair_cell.py:6012-6487 | a handler that runs to its end keeps the discipline, because it is a sequence of micro-steps |
| PairPaths.SettleSane | abt/pair_cell.py:6012-6487 | and keeps what the object is valid by: the discipline together with the conduct of desired state, fills and timer |
| Universe.GenerationsAgree | abt/pair_cell.py:3991-4065 | over loss, repetition, reordering, abandonment and restarts, a generation both sides have installed has one content, and they are never more than one generation apart |
| Universe.GenerationsOnlyGrow | abt/pair_cell.py:4111-4168 | no installed generation is ever rewritten or forgotten, and none goes back, on either side |
| Universe.AdmittedAttemptNamesOneProduct | abt/pair_cell.py:6253-6256 | an attempt made under the leader's generation at any time and admitted because the follower is at it now names the same products on both sides |
| Universe.TakeAckAgrees | abt/pair_cell.py:4049-4065 | committing only what the acknowledgement names exactly keeps the agreement |
| Universe.RetryAgrees | abt/pair_cell.py:4211-4241 | the follower can only install the successor of the leader's generation or its first |
| Universe.DiscoversWhenItMay | abt/pair_cell.py:3991-4047 | with both catalogs and a common product the first discovery installs and a later one stages, keeping what is installed; a blocked rediscovery, an unknown catalog or an empty intersection changes nothing |
| Universe.StagesWhatItFinds | abt/pair_cell.py:3991-4047 | a candidate is staged only by an unblocked rediscovery: exactly the common products of the two known catalogs, one generation on, and it is sent |
| Universe.InstallsWhatIsAcknowledged | abt/pair_cell.py:4049-4065 | after its first generation the leader installs only the staged candidate whose own acknowledgement arrives |
| Universe.InstallsWhatItReproduces | abt/pair_cell.py:4211-4241 | the follower installs, and acknowledges, only what its own two catalogs give |
| Universe.RefusesWhatItDoesNotReproduce | abt/pair_cell.py:4211-4241 | and when they do not, it refuses, forgets the candidate and changes nothing else |
| Universe.SplitHealsIffReproducible | abt/pair_cell.py:3991-4065 | when the follower is one generation ahead, some continuation brings the leader there if and only if it still holds, or would discover again, exactly that universe |
| Universe.RestartDuringSplitIsForever | abt/pair_cell.py:3052-3068 | a leader that restarts during such a split never reaches the follower's generation: every later candidate carries a newer publisher epoch |
| Universe.SplitHappens | abt/pair_cell.py:4211-4241 | a run that ends in such a split |
| UniverseCell.DiscoverySide.AcceptLocalCatalog | abt/pair_cell.py:3922-3936 | an unchanged catalog changes nothing; a new one takes the next version and is published; the agreement with any other side is kept, as by every method below |
| UniverseCell.DiscoverySide.AcceptPeerCatalog | abt/pair_cell.py:3945-3962 | only a catalog of a newer session or version replaces the known one |
| UniverseCell.DiscoverySide.RunDiscovery | abt/pair_cell.py:3991-4047 | the first generation is installed at once, a later one only staged; nothing when blocked, unknown or incompatible |
| UniverseCell.DiscoverySide.CommitStagedUniverse | abt/pair_cell.py:4049-4065 | installs the live candidate when it is exactly what was acknowledged |
| UniverseCell.DiscoverySide.AcceptUniverse | abt/pair_cell.py:4170-4195 | older ignored, installed one acknowledged again, newer one verified |
| UniverseCell.DiscoverySide.MaybeInstallPendingUniverse | abt/pair_cell.py:4211-4241 | installed and acknowledged only if this side's own catalogs reproduce its products, otherwise refused |
| UniverseCell.DiscoverySide.Restart | abt/pair_cell.py:2835-2842 | the newest stored generation, the next epoch, and nothing volatile |
| Sizing.FloorIsGreatest | abt/pair_cell.py:344-356 | the floor is on the volume grid and within request and maximum, and every grid volume within both is at most it, so it is absent exactly when there is none |
| Sizing.CommonLotsAreTheSmaller | abt/pair_cell.py:8165-8180 | for two grid-aligned plans of one product the common lots are the smaller maximum, whichever side leads |
| Sizing.CommonLotsNeverExceed | abt/pair_cell.py:8165-8180 | for any two plans they are the greatest volume of the leader's grid within both maxima |
| Sizing.CommonLotsFitBothBudgets | abt/pair_cell.py:4699-4737 | lots combined from two budget-priced plans fit each side's margin budget at its own price and each maximum, and no tradable volume that fits both is larger |
| Sizing.ProtectionIsOneToOne | abt/pair_cell.py:1788-1832 | stop and target are on the tick grid, and ticks from entry times tick value times volume, the loss at the stop and the gain at the target, is at most the allowed amount and short of it by less than two ticks of the volume |
| Sizing.ProtectionExistsIff | abt/pair_cell.py:1788-1832 | stops exist if and only if the amount pays for whole ticks on both sides that keep the broker's distance and leave positive prices |
| Sizing.BoxIsShared | abt/pair_cell.py:6957-6987 | both Workers derive the same box from swapped roles |
| Sizing.BoxIsSafe | abt/pair_cell.py:6957-6993 | both fills lie strictly inside the box, and at either boundary each leg loses or gains, by ticks from its own fill times tick value times volume, at most its own allowance |
| Sizing.BoxIsTight | abt/pair_cell.py:6957-6993 | each boundary is one leg's own: that leg's loss or gain there falls short of its allowance by less than two ticks |
| Sizing.BoxExistsIff | abt/pair_cell.py:6957-6993 | a box exists if and only if both legs have stops and both fills lie strictly inside both legs' stops |
| Sizing.MirroredStopsAreSafe | abt/pair_cell.py:6994-7013 | a Worker's own stops lie inside the box around its own fill, on its grid, at least the broker's distance away, within a tick of the box, and lose and gain at most its allowance in the same plain terms |
| Sizing.MirroredExistsIff | abt/pair_cell.py:6994-7013 | they exist if and only if there is a box and some pair of grid prices fits inside it at the broker's distance |
| Sizing.BoundariesLockTheNet | abt/pair_cell.py:6921-7013 | at either boundary the pair's price net differs from its entry net by less than the larger tick, and not at all when the ticks are equal |
| DailyLoss.DailyLossIsBounded | abt/pair_cell.py:4344-4366 | over any order of attempts, results, replays and midnights no day's realized loss exceeds the limit, if each attempt loses at most what it was assigned and is recorded before the next |
| DailyLoss.ReplayChangesNothing | abt/pair_cell.py:4523-4534 | delivering any results again, in any order and number, changes nothing |
| DailyLoss.AllowanceIsExact | abt/pair_cell.py:4344-4366 | an amount is allowed if and only if it is within the cap and the limit and losing it keeps the day's net at or above the negative limit |
| DailyLoss.RiskIsWithinTheCap | abt/pair_cell.py:4344-4351 | over any order of attempts, results and midnights no open attempt risks more than the cap |
| DailyLoss.RealizedResults.RecordRealized | abt/pair_cell.py:4523-4534 | one row per event; a known event changes nothing |
| DailyLoss.RealizedResults.AccumulatedLoss | abt/pair_cell.py:4361-4366 | the day's net loss, never negative |
| PlanBatches.BoundedBatches | abt/pair_cell.py:8217-8230 | the batches join to the payload in order, each fits the bound or is one oversize entry, and only the empty set makes an empty batch, exactly one |
| PlanBatches.BatchesReassemble | abt/pair_cell.py:5434-5480 | delivered in any order with repeats to a receiver that held nothing of the version: exactly the publisher's plans as soon as all have arrived, and until then what it had |
| PlanBatches.InstalledIsNamed | abt/pair_cell.py:5434-5480 | whatever envelopes arrive, what is installed is always the plan set whose version names it |
| PlanBatches.OnlyCompleteSetsInstall | abt/pair_cell.py:5434-5480 | an envelope changes what is installed only by completing every batch of its version, and only to the plans that version describes |
| PlanBatches.DistinctKeysFileExactly | abt/pair_cell.py:5417-5432 | plans with distinct keys are filed each under its key and nothing else |
| PlanStore.Store.InstallPlans | abt/pair_cell.py:4783-4847 | writes if and only if something economic or the policy changed; then exactly the versions in force that are not named again are stamped superseded now, the named ones are in force, every other stamp is as it was, and rows are kept while in force, inside the window or the live attempt's |
| PlanStore.Store.Purge | abt/pair_cell.py:4895-4914 | exactly the superseded rows at or past the window go, except the live attempt's |
| PlanStore.Store.Reload | abt/pair_cell.py:2918-2947 | the rows of the installed generation rebuild exactly the plans and the index that were in memory |
| PlanStore.Store.ValidatesByHistory | abt/pair_cell.py:4916-4944 | a version validates if and only if by the whole history it is current or was superseded within the window, and it is not a row purged at the very instant that ends the window |
| PlanStore.SupersededStaysValid | abt/pair_cell.py:4916-4944 | over time, refreshes, purges, restarts and new universes: a version superseded at n validates at every instant before n + retention and at none after, and under no other key |
| PlanStore.Store.InForceValidates | abt/pair_cell.py:4916-4944 | a version that was never superseded validates exactly under the key whose current plan it is |
| PlanStore.BoundaryDisagrees | abt/pair_cell.py:4901-4929 | at that instant two stores with one history disagree |
| LedgerRuns.PairingIsExclusive | abt/controlplane/ledger.py:1193-1293 | after any operations a Worker is in at most one route or reservation, every claim has a holder and every route its claim |
| LedgerRuns.OneReservationWins | abt/controlplane/ledger.py:571-640 | of two leaders choosing one follower, the second is refused while the first reservation lives |
| LedgerRuns.FailedCommitReleases | abt/controlplane/ledger.py:735-814 | a failed commit leaves no reservation and no claim of its pair, and issues no identifier |
| LedgerRuns.ReopenCostsOnlyReservations | abt/controlplane/ledger.py:2230-2241 | reopening keeps exactly the claims of routed pairs; a reservation that loses its claim still commits to the same routes |
| LedgerRuns.DeletedIsGone | abt/controlplane/ledger.py:1653-1747 | a deleted Worker is in no route, reservation, claim, version or assertion, its peers are free, and everyone else is untouched |
| LedgerRuns.RouteIdsNeverReused | abt/controlplane/ledger.py:1231-1250 | over any operations an identifier never names another pair, and never a route again once its route is gone |
| LedgerRuns.VersionsNeverDecrease | abt/controlplane/ledger.py:950-984 | a member's recorded state version never goes back while its route lives |
| LedgerRuns.AssertionsStand | abt/controlplane/ledger.py:1303-1338 | every stored assertion was made since its route last entered UNPAIRING and is bound to that member's latest reported version |
| LedgerRuns.UnpairNeedsBoth | abt/controlplane/ledger.py:1012-1069 | an assertion removes a route only if both members' assertions stand in that sense |
| LedgerRuns.SecondAssertionRemoves | abt/controlplane/ledger.py:1012-1069 | an accepted assertion removes the route if and only if the other member's is there |
| LedgerEffects.ReservesIff | abt/controlplane/ledger.py:571-640 | a reservation is accepted if and only if the two differ, are active and connected, and neither is routed or in a live reservation |
| LedgerEffects.ReservesExactly | abt/controlplane/ledger.py:571-640 | it adds one reservation, led by the asked leader, followed by the asked follower, for 30 seconds, and its claim; nothing but expired reservations and their claims goes |
| LedgerEffects.CommitsIff | abt/controlplane/ledger.py:735-814 | a commit is accepted if and only if its reservation lives, both are active and connected and one of eight draws is new |
| LedgerEffects.CommitsExactly | abt/controlplane/ledger.py:735-814 | it adds one route with a drawn, never issued identifier, of the reserved leader and follower in that order, not unpairing and without assertions, and touches no other route |
| LedgerEffects.ReservationsAreReserved | abt/controlplane/ledger.py:571-640 | over any operations every reservation is as an accepted request asked, leader, follower and expiry |
| LedgerEffects.RoutesKeepTheirRoles | abt/controlplane/ledger.py:571-814 | over any operations every route is led by the leader, and followed by the follower, of the reservation that its commit was of |
| LedgerEffects.ReleasesExactly | abt/controlplane/ledger.py:1252-1280 | a release takes that reservation and its claim and nothing else |
| LedgerEffects.RevokedIsNotPaired | abt/controlplane/ledger.py:1637-1651 | a revoked Worker can neither reserve nor be committed |
| LedgerEffects.UnpairingCompletes | abt/controlplane/ledger.py:889-1069 | entering and then both members asserting removes the route with its claim, versions and assertions, and nothing else |
| LedgerEffects.CancelStartsOver | abt/controlplane/ledger.py:921-948 | a cancelled route is active again without assertions and accepts none until it is entered again |
| LedgerEffects.VersionIsRecorded | abt/controlplane/ledger.py:950-984 | a report is accepted if and only if it is a member's and not backwards; it sets that version and drops only that member's older assertion |
| LedgerEffects.DeletesExactly | abt/controlplane/ledger.py:1653-1747 | exactly the Worker's routes and reservations go |
| Ledger.ApplyKeeps | abt/controlplane/ledger.py:571-1361 | every accepted operation keeps exclusivity, claims, and fresh assertions on unpairing routes |
| ControlLedgerObject.ControlLedger.ReserveRoute | abt/controlplane/ledger.py:571-640 | the tables after expiry and reservation, with leader, follower and expiry stored as asked, or unchanged when refused |
| ControlLedgerObject.ControlLedger.CreateRoute | abt/controlplane/ledger.py:735-814 | one new route of the reservation's leader and follower in that order under a fresh drawn identifier, or the rolled-back tables with the reservation released |
| ControlLedgerObject.ControlLedger.IssueRouteId | abt/controlplane/ledger.py:1231-1250 | the first of at most eight draws never issued, and it is remembered |
| ControlLedgerObject.ControlLedger.CheckEligibility | abt/controlplane/ledger.py:1193-1229 | true exactly if neither Worker is routed, otherwise reserved, or claimed with someone else |
| ControlLedgerObject.ControlLedger.ReleaseAll | abt/controlplane/ledger.py:1252-1293 | releasing one by one is releasing together: the reservations go, and each claim whose pair is on no route |
| ControlLedgerObject.ControlLedger.EnterUnpairing | abt/controlplane/ledger.py:889-919 | the route is unpairing and all its earlier assertions are gone |
| ControlLedgerObject.ControlLedger.CancelUnpairing | abt/controlplane/ledger.py:921-948 | only an unpairing route returns to active, without assertions |
| ControlLedgerObject.ControlLedger.RecordStateVersion | abt/controlplane/ledger.py:950-984 | never backwards; a new version removes that member's assertion |
| ControlLedgerObject.ControlLedger.RecordAssertion | abt/controlplane/ledger.py:1012-1069 | stored with its version, and the route removed with everything of it when both are fresh |
| ControlLedgerObject.ControlLedger.DeleteWorker | abt/controlplane/ledger.py:1653-1747 | routes one by one, reservations, then everything keyed by the Worker |
| ControlLedgerObject.ControlLedger.DropOrphanedClaims | abt/controlplane/ledger.py:2230-2241 | only claims of routed pairs remain |
| Framing.ScanFollowsNesting | abt/worker/wine_mt5_protocol.py:28-48 | over any well-formed JSON text, with any escapes, multi-byte characters and white space, the scanner ends where it began having seen exactly the nesting depth |
| Framing.RejectExcessiveNesting | abt/worker/wine_mt5_protocol.py:28-48 | refuses exactly when some prefix goes deeper than the maximum |
| Framing.ReadExact | abt/worker/wine_mt5_protocol.py:78-87 | exactly the next bytes however the stream is cut, or an error with the stream consumed |
| Framing.ReadFrame | abt/worker/wine_mt5_protocol.py:90-95 | the result and the remaining stream, by what the next frame holds: end, too large, malformed or a value |
| Framing.FrameIsRead | abt/worker/wine_mt5_protocol.py:90-95 | a value is read if and only if the big-endian length is at most 4 MiB, that many bytes follow, they nest at most 128 deep and parse to that object, and the rest of the stream is what follows them |
| Framing.TooLargeIsRefused | abt/worker/wine_mt5_protocol.py:90-95 | a longer announced frame is refused after its header alone |
| Framing.WriteFrame | abt/worker/wine_mt5_protocol.py:110-112 | appends the frame, or nothing when it is too large |
| Framing.FrameRoundTrip | abt/worker/wine_mt5_protocol.py:90-107 | a written frame is read back as its value if it is nested at most 128 deep, otherwise refused, and either way the next frame is next |
| Framing.DeepValueIsSentAndRefused | abt/worker/wine_mt5_protocol.py:98-107 | an object around 128 or more nested arrays, within the frame size, is encoded, and its frame is refused by the reader although the parser would read it back |
| Framing.ReadFrames | abt/worker/wine_mt5_protocol.py:78-112 | a concatenation of frames is read back value by value in order for every way the stream is cut |

## Left out

- PairNetwork.Step: in-order channels; a relay that reorders envelopes of one direction is not modelled for the attempt protocol.
- PairSafety.BothFlatInEveryRun: does not claim anything for a broker that is not conclusive, because PairLimits shows it false there.
- PairConfirmation.ConfirmationIsSound: fill prices and attached stops are two flags of the confirming step, not compared prices, because the plan lookup and the tolerance test add no protocol behaviour.
- PairConfirmation.CloseRequestIsFinal: does not cover the rollback to rough protection, which the code may still write after a close request.
- PairProbe.ProbeFinishesIffProven: the two channels are empty before the probe; what else is queued would be taken first.
- PairResponses.NegativePeerCloses: does not cover a process that dies between recording the peer's status and the close request; the request is then lost until the peer says it again.
- PairResponses.ProtectionIsAsDecided: the two prices of a decision are given to the step; that they are the mirrored stops is `Sizing`, which the protocol does not call.
- PairWorker.CallBroker: a close removes its whole ticket or nothing; partial closes are not modelled.
- PairCell.PairExecutionCell.RequestBrokerRead: the account moves only by the pass's own writes while it runs; a read that fails and establishes nothing is the same as no pass.
- PairCell.PairExecutionCell.JournaledEmergencyWrite: live mode only; shadow mode is not modelled anywhere.
- PairCell.PairExecutionCell.Restart: one route per database, and no attempt of another route in it.
- Sizing.BoundariesLockTheNet: exact reals; the 28-digit rounding of the decimal library is not modelled.
- DailyLoss.DailyLossIsBounded: one fixed policy; what a leg really loses against its stop (gaps, slippage, costs) is an assumption.
- PlanBatches.BatchesReassemble: one publication of one generation at a time, and no older peer that names sets with margins included.
- PlanStore.Store.ValidatesByHistory: one fixed retention window.
- Framing.FrameRoundTrip: the library's parser is a parameter that reads back the value in question; duplicate keys, non-finite numbers and invalid UTF-8 are its refusals.
- Universe.SplitHealsIffReproducible: request identifiers and recorded answers only resend messages that are already on the wire, so they are not modelled.
- The state label of a cell (`IDLE`, `ACTIVE`, `NEEDS_HUMAN` and so on): what it guards is modelled by the attempt, the desired state and the operator stop.
- The settling of a deferred containment effect after its waiting time, and the recovery of operator stops: they read and latch, and send nothing.
- Candidate selection, quotes, sessions, blackout windows, time zones, plan pricing, gate statistics: when an attempt is made is free.
- Quarantine and its release markers, policy acceptance, pairing acceptance payloads: no effect on what is proved.
- The scheduler and the MT5 adapter: any answer they may give is allowed.
- SQL, migrations, audit events, worker enrolment and certificates, administrator sessions, relay envelopes and the HTTP service of the control plane.
- Shadow execution claims in the ledger: only the live claim kind is modelled.
