# Payment simulator and load-test tooling: a verified model

The repository load-tests payment services. Its centre is an in-memory payment simulator: wallets with
balances and reserves, a ledger, collections, payouts, purchases and transfers that move through statuses on
timers, idempotency keys, batches, settlements, an event feed and reset epochs. Around it stand a webhook
receiver, a rate limiter, load plans, evidence packs, refresh tokens and test-data checks. This project models
those parts and proves what they promise over every run.

## How the simulator is modelled

* `Domain.dfy`, `Money.dfy`: requests, payments, wallets, events, amounts and fees.
* `Operations.dfy`: what each operation does to the books, as functions of the books.
* `Protocol.dfy`: the simulator as a state machine. A call runs from one `await` to the next, so calls
  interleave exactly where the source suspends; an operation that debits is split at `await this.debit`.
  Timers fire earliest first, in the order of scheduling among equals. Any sequence of steps (requests under
  any keys, crashes, replies that are lost after being applied, timers, the passing of time, balance and
  configuration controls, resets between calls) is a run.
* `Simulator.dfy`: the class. Its methods update the fields in place, and every method is proved to do to the
  whole state exactly what the functions above say. `Exercise` puts a fresh object through any steps.
* `Groundwork`: what every run keeps under any configurations and any order of the timers: no drift, counters
  that match the payments, and exactly one call waiting on each payment not yet registered.
* `Accounting`, `BookInvariants`, `Segments`, `Bookkeeping`: what every run keeps of money, likewise: accounting
  identities, written as gaps that must be zero, and exactly one final timer for each open payment and one refund
  for each failed one that holds money. How a payment came out is read off its completion and its reason for
  failure, which no order of the timers disturbs.
* `Shapes`, `Reachability`: what holds of statuses besides, for configurations whose two timers of a payment stay
  in order: shapes tie each payment's record to its status and its events, reachability ties the timer queue to
  the payments it is for. `Delays`: that this order is exactly what the promises about statuses need.
* `Reconciliation`, `Idempotency`, `Duplicates`, `Solvency`, `Settlements`, `DailyLimits`, `Lifecycle`,
  `Batches`, `Isolation`, `Acceptance`, `Webhooks`, `Addressing`, `Paging`: what follows for the callers.
* `SmallRuns`, `Failures`: runs of a fresh simulator in which a promise fails.

`RateLimit`, `EvidencePack` with `TamperEvidence`, `LoadPlan`, `RefreshTokens` with `RefreshRaces`, `Luhn` and
`RaceBug` stand on their own; `Sums` and `Text` hold what several of them use. Loops and objects of the source are loops and
classes here, proved against functions whose properties are then proved as lemmas.

The configuration is fixed to correct idempotency, no planted race (`RaceBug.dfy` shows what the race does)
and no deliberate defects. Fault injection is a free choice of every step.

## What the code does not promise

Each of these is proved: by a run of a fresh simulator, or by a lemma over every state, in which the promise
fails, and by the exact condition under which it holds.

* A payment can be applied twice: between the reference check and the registration lies one suspension, and a
  second request that starts inside it passes the check too (`DuplicatedExactly`, `OverlapDuplicates`, and the
  run `SmallChangeAppliedTwice`). A run never duplicates exactly if no step of it starts a payment that is in its
  gap (`NeverDoubledExactly`), as runs that take each call through that gap undisturbed do not: an event loop that
  finishes its microtasks between requests (`UndisturbedNeverDoubles`). The same gap lets payouts overstep the
  daily limit (`OutwardExactly`, and the run `LimitOverstepped`).
* A batch sent again while it is still being worked on is worked on twice: the second to finish replaces the
  remembered reply, and both callers get different ones (`ReplacedExactly`, and the run `TwoReplies`). A
  remembered reply stands for good exactly if no call is at work on its batch (`StandsForeverExactly`); in
  runs that start no payment in its gap even then no item is paid twice (`ItemsPaidOnce`).
* With the fee on the recipient and an amount of at most 10 pesewas, a collection credits nothing or less than
  nothing (`RecipientIsOwed`), which can overspend a wallet (`SolventExactly`, `CreditSolventAt`, and the run
  `SmallCollectionOverspends`) and lets settlement runs count items they never pay (`SettleRunsExactly`,
  `RunsAddUpExactly`, and the run `UnpaidItemCounted`).
* A settlement does not check the balance and can drive it negative (`SettlePays`, and the run
  `SettlementOverdraws`); the balance plus everything settled out stays non-negative where collections are
  worth something (`RunsAddUp`).
* Idempotency entries are keyed by credential, colon, key: two credentials share entries exactly if one is the
  other followed by a colon and at most 253 characters (`SharesExactly`), and then one can be answered with the
  reply to the other (the runs `AnsweredForAnother`, `ColonsMeet`).
* A resolve delay from 2^31 to 2^32-1 milliseconds makes the final timer fire before the half-way one
  (`DelaysOrderedExactly`). With such a delay there are runs in which a completed payment is back in an
  unfinished status, a status jumps, an emptied queue leaves a payment unfinished, and a receiver of every
  webhook disagrees with the API; with any other delay there are none (`PromisesExactly`). Everything about money
  holds for every delay: ledger, reserves, conservation, settlements (`RunSturdy`, `LedgerExplains`,
  `NoStrayReserve`, `MoneyConserved`, `RunsAddUpExactly`).
* A purchase the payer funds that fails to vend never completes, and no refund is due to it
  (`NeverCompletesExactly`, `StuckForever`, and the run `PurchaseStranded`). It gets there exactly by its final
  step under a configuration that fails purchases (`StrandsExactly`).
* The receiver's ranking has no entry for the two half-way statuses of purchases (`ReceiverAgrees`), and goes
  by reference alone, whatever the kind or the credential: it chooses a status exactly if that was heard before
  every other of its rank and nothing under the reference ranks higher (`ReceiverChoosesExactly`, and the run
  `ReferenceShared`).
* The transaction listing accepts two kinds that no stored payment has (`TransfersHaveNoFilter`).
* A rate under one request per second never lets anything through, though it advertises a waiting time
  (`WaitingSuffices`, `SlowNeverAccepts`).
* Assembling accepts paths with line terminators and a caller's own README.txt; verifying the result then
  fails (`VerifiesExactly`). A pack depends on the order its files were supplied in exactly if two of their
  paths tie in the locale order (`OrderMattersExactly`).
* Two refreshes of one token that both look it up before either rotates it leave two live tokens (the run
  `TwoLiveTokens`); a run never has two exactly if no rotation runs beside a live token of its family
  (`NeverForksExactly`, `RotatesExactly`). A rotation that was held up revives a burnt family (the run
  `BurntFamilyRevives`); a burnt family stays dead for good exactly if no refresh of it is on its way
  (`DeadForGoodExactly`).
* Stress tiers capped to 1 and spike tiers capped under twice their base rate peak above the ceiling
  (`FitTier`); a stress plan of ten seconds overruns (`StagesAddUp`).

## Model

| member | source | states |
|---|---|---|
| Money.AmountRoundTrip | src/loadtest/simulator/simulator.ts:217-223 | printing and parsing an amount undo each other exactly for positive amounts that fit in 14 characters |
| Money.RecipientIsOwed | src/loadtest/contract/ismartpay.ts:402-410 | the recipient is owed something exactly if the payer bears the fee or the amount exceeds the minimum fee |
| Domain.DelaysOrderedExactly | src/loadtest/simulator/simulator.ts:741-746 | the half-way timer is due no later than the final one, except for the delays whose half alone fits the timer range |
| Domain.KeyTextInjective | src/loadtest/simulator/simulator.ts:631-644 | the text key of a payment names one kind, credential and reference, since references hold no colon |
| Domain.SameEntryExactly | src/loadtest/simulator/simulator.ts:514-516 | two requests meet in one idempotency entry exactly if credential and key are the same, or one credential extends the other at a colon and the key makes up for it |
| Simulator.Simulator.EnsureWallet | src/loadtest/simulator/simulator.ts:541-549 | a missing wallet is made at the opening balance; the rest of the state is untouched |
| Simulator.Simulator.Post | src/loadtest/simulator/simulator.ts:551-553 | one numbered ledger entry is appended and nothing else changes |
| Simulator.Simulator.Debit | src/loadtest/simulator/simulator.ts:555-576 | refused exactly if the balance is short; otherwise balance, reserve and ledger move together and the balance stays non-negative |
| Simulator.Simulator.Credit | src/loadtest/simulator/simulator.ts:578-581 | the balance rises with a ledger entry of the same amount |
| Simulator.Simulator.Release | src/loadtest/simulator/simulator.ts:869-893 | the reserve falls by the held amount, without a ledger entry |
| Simulator.Simulator.NoteVolume | src/loadtest/simulator/simulator.ts:594-597 | one credential's volume of one direction grows by the amount |
| Simulator.Simulator.NewTx | src/loadtest/simulator/simulator.ts:646-672 | a payment takes the next serial number, its kind's first status and the fee bearer of the moment |
| Simulator.Simulator.Register | src/loadtest/simulator/simulator.ts:640-644 | the payment enters the map under its key with the outcome the configuration of the moment gives it, first insertions extend the order, and its effect is counted once more |
| Simulator.Simulator.Emit | src/loadtest/simulator/simulator.ts:1391-1399 | a snapshot is appended to the feed under a fresh id |
| Simulator.Simulator.SetStatus | src/loadtest/simulator/simulator.ts:748-759 | the payment changes in place and its new state is announced to its owner |
| Simulator.Simulator.Defer | src/loadtest/simulator/simulator.ts:741-746 | a timer is queued at the clamped delay, stamped with the current epoch |
| Simulator.Simulator.CreateCollection | src/loadtest/simulator/simulator.ts:780-829 | checks, registration, announcement and both timers of a collection, with the whole new state |
| Simulator.Simulator.Hold | src/loadtest/simulator/simulator.ts:859-863 | a payment object lives on only if its debit went through; otherwise the refusal leaves at most a new wallet |
| Simulator.Simulator.StartPayout | src/loadtest/simulator/simulator.ts:831-863 | a payout up to its awaited debit; its outcome is only drawn afterwards, by the configuration then |
| Simulator.Simulator.StartUtility | src/loadtest/simulator/simulator.ts:934-977 | a purchase up to its awaited debit, or to its end when the payer funds it |
| Simulator.Simulator.StartTransfer | src/loadtest/simulator/simulator.ts:1011-1021 | a transfer up to its awaited debit |
| Simulator.Simulator.ResumeHeld | src/loadtest/simulator/simulator.ts:864-893 | after the debit: registration, announcement, and the review timer alone or the two resolving timers |
| Simulator.Simulator.ResumeTransfer | src/loadtest/simulator/simulator.ts:1022-1032 | after the debit: the recipient is credited, the transfer completed and both sides told |
| Simulator.Simulator.Finalise | src/loadtest/simulator/simulator.ts:808-827 | the final step by kind and outcome: credit, release, failure, and the refund timer of a failed held payment |
| Simulator.Simulator.Step | src/loadtest/simulator/simulator.ts:741-759 | each timer step changes its payment in place exactly as its kind prescribes |
| Simulator.Simulator.Due | src/loadtest/simulator/simulator.ts:1338-1345 | the loop finds the number and the net total of what is due to a credential |
| Simulator.Simulator.PayOutDue | src/loadtest/simulator/simulator.ts:1347-1348 | exactly the due collections become settled out |
| Simulator.Simulator.SettleNow | src/loadtest/simulator/simulator.ts:1331-1368 | one settlement request: repeat, refusal, or a run with what it paid, on the whole state |
| Simulator.Simulator.PutPolicy | src/loadtest/simulator/simulator.ts:1299-1324 | a momo policy gets the next version; other destinations are refused |
| Simulator.Simulator.SetBalance | src/loadtest/simulator/simulator.ts:1139-1147 | the balance becomes the target through an adjustment entry of the difference |
| Simulator.Simulator.TakeItem | src/loadtest/simulator/simulator.ts:913-932 | the next batch item is started, or the batch is numbered and remembered with its reply |
| Simulator.Simulator.Idempotent | src/loadtest/simulator/simulator.ts:504-522 | a known key is answered or refused without running; a new key is marked running before its handler runs |
| Simulator.Simulator.Finish | src/loadtest/simulator/simulator.ts:523-537 | the reply or a refusal under 500 is committed, anything else forgets the key |
| Simulator.Simulator.Fire | src/loadtest/simulator/simulator.ts:741-746 | the due timer leaves the queue and runs only if it belongs to the current epoch |
| Simulator.Simulator.Reset | src/loadtest/simulator/simulator.ts:350-371 | everything is emptied but the pending timers, which the new epoch disowns |
| Simulator.Simulator.Reconcile | src/loadtest/simulator/simulator.ts:1459-1485 | the loops compute the whole report: every wallet beside its ledger, payments by kind and status, duplicate effects, negative wallets and the total drift |
| Simulator.Simulator.Perform | src/loadtest/simulator/simulator.ts:313-345 | the object refines the state machine: any step does to it what the machine says |
| Simulator.Exercise | src/loadtest/simulator/simulator.ts:1459-1485 | a fresh simulator put through any steps under any configurations reports no drift in total or in any wallet, and no duplicates if no step started a payment that was in its gap |
| Accounting.MoveAt | src/loadtest/simulator/simulator.ts:555-581 | a posted movement opens no drift and moves reserve and payment identities by its own amounts |
| BookInvariants.HoldKeeps | src/loadtest/simulator/simulator.ts:859-863 | holding a payment keeps every accounting identity |
| BookInvariants.ActKeeps | src/loadtest/simulator/simulator.ts:808-893 | every timer step of every kind keeps every accounting identity |
| BookInvariants.SettleKeeps | src/loadtest/simulator/simulator.ts:1331-1368 | a settlement keeps every accounting identity |
| Shapes.ActShape | src/loadtest/simulator/simulator.ts:748-759 | every timer step keeps records consistent with statuses and the feed telling statuses in lifecycle order, the current one last |
| Shapes.RecordIndexed | src/loadtest/simulator/simulator.ts:640-644 | registration keeps map, order and payments in step |
| Groundwork.RunKeepsGround | src/loadtest/simulator/simulator.ts:551-644 | every run, whatever the configurations, the order of the timers and the interleaving, keeps balances equal to their ledger, effect and volume counters equal to the registered payments, map and order in step, and one call waiting on each unregistered payment |
| Bookkeeping.RunSturdy | src/loadtest/simulator/simulator.ts:551-893 | every run, under any configurations and in any order of the timers, keeps all accounting identities, exactly one final timer for each open payment and one refund for each failed one that holds money |
| Bookkeeping.TimerReady | src/loadtest/simulator/simulator.ts:741-746 | a live timer belongs to a registered payment; a final one finds it open, a refund finds it failed and unrefunded |
| Segments.NextSegmentOk | src/loadtest/simulator/simulator.ts:913-932 | an uninterrupted stretch of any call holds or registers at most one payment, just as it was made, with exactly its timers |
| Reachability.FireFits | src/loadtest/simulator/simulator.ts:741-746 | the next live timer always finds its payment in the status it was scheduled for |
| Reachability.RunKeeps | src/loadtest/simulator/simulator.ts:1459-1485 | every run of configurations whose timers stay in order keeps the whole invariant: balanced books, statuses that tell how payments came out, and exactly the timers each payment needs |
| Reconciliation.NoDrift | src/loadtest/simulator/simulator.ts:1459-1469 | in every run at all the reported drift is zero and balances are openings plus ledger entries |
| Reconciliation.NoStrayReserve | src/loadtest/simulator/simulator.ts:869-893 | in every run at all reserves are exactly the holds of uncompleted payments, never negative |
| Reconciliation.ReportCounts | src/loadtest/simulator/simulator.ts:1470-1482 | in every run the report names exactly the negative wallets and counts each recorded payment once, under its own kind and status |
| Reconciliation.LedgerExplains | src/loadtest/simulator/simulator.ts:551-581 | in every run at all the ledger entries of a payment key sum to the net effect of its payments |
| Reconciliation.RefundsCancel | src/loadtest/simulator/simulator.ts:884-889 | the ledger entries of refunded payments cancel exactly |
| Reconciliation.VolumesMatch | src/loadtest/simulator/simulator.ts:594-597 | in every run at all daily volumes are the sums of the registered amounts, in and out |
| Reconciliation.MoneyConserved | src/loadtest/simulator/simulator.ts:555-581 | over whole runs, in any order of the timers, balances and reserves are openings plus collections and adjustments less deliveries, settlements and transfers in transit |
| Reconciliation.TransfersCancel | src/loadtest/simulator/simulator.ts:1011-1032 | with no call in progress nothing is in transit |
| Idempotency.OneExecutionOneReply | src/loadtest/simulator/simulator.ts:504-537 | in every interleaving at most one execution of a key counts, and all calls that show its committed reply or refusal show the same one to the same body |
| Idempotency.CommittedForever | src/loadtest/simulator/simulator.ts:504-537 | a committed reply is never replaced before a reset |
| Idempotency.ReplayedForever | src/loadtest/simulator/app.ts:118-135 | after a reply, delivered or lost, or a committed refusal, every later call of the key with that body gets it and changes nothing; another body is refused |
| Idempotency.SharesExactly | src/loadtest/simulator/simulator.ts:510-516 | two credentials can meet in an entry, under keys the header accepts, exactly if one is the other followed by a colon and at most 253 characters |
| Failures.AnsweredForAnother | src/loadtest/simulator/simulator.ts:514-522 | a run of a fresh simulator, for any two credentials and keys that meet: the second caller gets the reply to the first, about its payment, and runs nothing |
| Failures.ColonsMeet | src/loadtest/simulator/simulator.ts:514-522 | the same for the credentials a and a:b |
| Duplicates.DuplicatedExactly | src/loadtest/simulator/simulator.ts:631-644 | a step makes a second object of a payment exactly if its request is accepted and the payment is between its debit and its registration, both read off before the step |
| Duplicates.NeverDoubledExactly | src/loadtest/simulator/simulator.ts:631-644 | in every run no payment ever has two objects, exactly if no step starts a payment that is in its gap |
| Duplicates.UndisturbedNeverDoubles | src/loadtest/simulator/simulator.ts:859-866 | runs that take each call through its gap undisturbed start no payment in a gap |
| Duplicates.StepMakes | src/loadtest/simulator/simulator.ts:631-644 | every step makes exactly the payment its request asks for, and only when that request is accepted |
| Duplicates.NeverAppliedTwice | src/loadtest/simulator/simulator.ts:631-644 | runs in which no step starts a payment in its gap, under any configurations, report no duplicate effect and count each payment at most once |
| Duplicates.GapAcceptsAgain | src/loadtest/simulator/simulator.ts:843-863 | inside the gap the same payout is accepted again exactly if the wallet covers it again |
| Duplicates.OverlapDuplicates | src/loadtest/simulator/simulator.ts:859-866 | from any reachable state, two overlapping requests that are both accepted are reported as a duplicate effect |
| Duplicates.SmallChangeOverlaps | src/loadtest/simulator/simulator.ts:859-866 | a concrete fresh simulator where the overlap happens |
| Duplicates.SmallChangeAppliedTwice | src/loadtest/simulator/simulator.ts:859-866 | a run of a fresh simulator that reports one payout applied twice |
| Solvency.SteadyDebit | src/loadtest/simulator/simulator.ts:570-576 | every allowed debit leaves its wallet non-negative and every other wallet as solvent as before |
| Solvency.SteadyAct | src/loadtest/simulator/simulator.ts:808-893 | timer steps keep solvency, payment terms and runs, unless a collection credits less than nothing |
| Settlements.SettleRunsExactly | src/loadtest/simulator/simulator.ts:1338-1365 | a settlement keeps runs and settled-out collections in step exactly if it makes no run, nothing is due, or the net is positive |
| Settlements.SettlePays | src/loadtest/simulator/simulator.ts:1347-1351 | a paid run moves its total from the balance to what was settled out; the balance is not negative afterwards exactly if it covered the total |
| Settlements.StepDeals | src/loadtest/simulator/simulator.ts:816-817 | in any order of the timers every step keeps every payment's terms and moves its settlement state on by at most one stage |
| Settlements.SettlementOnlyAdvances | src/loadtest/simulator/simulator.ts:1338-1348 | over any run, in any order of the timers, a settlement state never goes back, and a settled-out collection is never due again |
| Settlements.WorthwhileTx | src/loadtest/contract/ismartpay.ts:402-410 | under the fees the configuration schema accepts, a collection leaves its recipient something exactly if the payer bears the fee or the amount exceeds the minimum fee |
| Settlements.RunsAddUp | src/loadtest/simulator/simulator.ts:1331-1365 | in every run whose collections leave their recipients something a credential's runs add up to its settled-out collections, in total and number, and balance plus settled-out money is never negative |
| Settlements.RunsAddUpExactly | src/loadtest/simulator/simulator.ts:1331-1365 | in every run a credential's runs add up to its settled-out collections, in total and number, exactly if no run counted items that netted to nothing or less |
| Settlements.CreditSolventAt | src/loadtest/simulator/simulator.ts:808-818 | crediting a collection leaves its wallet solvent exactly if balance, settled-out money and recipient amount are together not negative, whatever the balance |
| Settlements.SolventExactly | src/loadtest/simulator/simulator.ts:555-581 | any step keeps every wallet solvent, exactly unless it credits a collection beyond what its wallet makes up for |
| Failures.SmallCollectionOverspends | src/loadtest/simulator/simulator.ts:808-818 | a run of a fresh simulator: one collection of five pesewas leaves an empty wallet at minus five |
| Failures.UnpaidItemCounted | src/loadtest/simulator/simulator.ts:1338-1365 | a run of a fresh simulator: a settlement run counts one item and pays none |
| Failures.SettlementOverdraws | src/loadtest/simulator/simulator.ts:1347-1351 | a run of a fresh simulator: money collected and spent is settled all the same, and the wallet ends negative |
| DailyLimits.InwardNeverExceeds | src/loadtest/simulator/simulator.ts:583-597 | while no configuration sets a daily limit above a bound, collections never exceed the bound, in any interleaving, with any patches and resets |
| DailyLimits.OutwardNeverExceeds | src/loadtest/simulator/simulator.ts:583-597 | nor do outward payments, in runs that take calls through their gaps undisturbed |
| DailyLimits.OutwardExactly | src/loadtest/simulator/simulator.ts:583-597 | in every run what is paid out stays within the limit all along, exactly if no payment comes out of its gap without room |
| DailyLimits.OverstepsExactly | src/loadtest/simulator/simulator.ts:863-865 | a payment leaving its gap oversteps the limit exactly if what was counted meanwhile left it no room |
| Failures.LimitOverstepped | src/loadtest/simulator/simulator.ts:863-865 | a run of a fresh simulator: two overlapping payouts pay out more than the daily limit |
| Lifecycle.StepMoves | src/loadtest/simulator/simulator.ts:748-759 | every step moves every payment along at most one edge of its status machine |
| Lifecycle.CompletedExactlyWhenFinal | src/loadtest/simulator/simulator.ts:748-759 | in every run whose timers stay in order a completion time stands exactly in the final statuses, payments end as their outcome has it, exactly failures carry a reason, and the status tells how the payment came out |
| Lifecycle.AtMostThreeSteps | src/loadtest/simulator/simulator.ts:804-893 | a registered payment takes at most three timer steps, however long the run and whatever the order of the timers |
| Lifecycle.DrainedAtRest | src/loadtest/simulator/simulator.ts:864-893 | an empty queue leaves only final payments, payouts in review and failed purchases the payer funds |
| Lifecycle.Drain | src/loadtest/simulator/simulator.ts:741-746 | the queue can always be drained, within as many steps as it has timers and final timers, and leaves only completed payments, payouts in review and failed purchases the payer funds |
| Lifecycle.StrandsExactly | src/loadtest/simulator/simulator.ts:964-1007 | a registered payment gets stuck exactly by the final step of a purchase the payer funds, under a configuration that fails it, and stays so |
| Lifecycle.NeverCompletesExactly | src/loadtest/simulator/simulator.ts:864-1007 | until a reset a registered payment is not completed whatever happens, exactly if it is a payout in review or a failed purchase the payer funded |
| Lifecycle.StuckForever | src/loadtest/simulator/simulator.ts:864-1007 | where timers stay in order such a payment also keeps its unfinished status through every run without a reset |
| Failures.PurchaseStranded | src/loadtest/simulator/simulator.ts:964-1007 | a run of a fresh simulator whose purchase is left failed, unrefunded and without a timer, for good |
| Delays.PromisesExactly | src/loadtest/simulator/simulator.ts:741-746 | completion exactly in final statuses, statuses that follow their edges, an emptied queue that leaves everything at rest, receivers that agree with the API: each holds in every run exactly if the resolve delay keeps the two timers of a payment in order |
| Batches.EachInOrder | src/loadtest/simulator/simulator.ts:913-922 | a batch answers one result per item, in order |
| Batches.BatchIsItsItems | src/loadtest/simulator/simulator.ts:896-932 | a batch and its items posted one by one leave the same wallets, payments, ledger, events, volumes and timers |
| Batches.ResentForNothing | src/loadtest/simulator/simulator.ts:903-911 | sending a remembered batch again under a new key changes nothing and gets the reply remembered then, or a refusal of a different body, even while another call is at work on it |
| Batches.RunBatchIds | src/loadtest/simulator/simulator.ts:922-930 | in every run each remembered batch carries a number already drawn |
| Batches.ReplacedExactly | src/loadtest/simulator/simulator.ts:922-930 | a step replaces a remembered reply exactly if it closes a batch of the same credential and reference |
| Batches.StandsForeverExactly | src/loadtest/simulator/simulator.ts:903-930 | a remembered reply stands through every continuation without reset, exactly if no call is at work on a batch of its credential and reference |
| Batches.TwoReplies | src/loadtest/simulator/simulator.ts:903-930 | a run of a fresh simulator: one batch sent twice at once gets two different replies, and the second is remembered |
| Batches.ItemsPaidOnce | src/loadtest/simulator/simulator.ts:913-922 | in runs that start no payment in its gap each payout of a batch takes effect at most once, however many calls work on the batch |
| Isolation.ResetIsolates | src/loadtest/simulator/simulator.ts:350-371 | every run after a reset has the books, replies and clock of a run of a fresh simulator, whatever timers were pending |
| Isolation.StepErases | src/loadtest/simulator/simulator.ts:741-746 | each step commutes with forgetting epochs and disowned timers |
| Acceptance.PayoutExactly | src/loadtest/simulator/simulator.ts:831-863 | exactly when a payout is accepted, answered as a repeat or refused, and that the latter two move no money |
| Acceptance.TransferExactly | src/loadtest/simulator/simulator.ts:1011-1021 | the same for transfers |
| Acceptance.UtilityExactly | src/loadtest/simulator/simulator.ts:934-977 | the same for purchases of both fundings |
| Acceptance.CollectionExactly | src/loadtest/simulator/simulator.ts:780-803 | the same for collections, which need no balance |
| Acceptance.RefusalsAreFree | src/loadtest/simulator/simulator.ts:583-638 | a refused request leaves no trace but a serial number and perhaps a wallet at its opening balance |
| Acceptance.TestNumbersAreOne | src/loadtest/contract/ismartpay.ts:314-318 | two texts with the same digits, or the short and the long form of a documented number, however punctuated, have one outcome |
| Webhooks.WebhookReceiver.Receive | src/loadtest/correctness/receiver.ts:37-76 | every delivery is recorded and numbered among those of its id, and answered 401 unless genuine |
| Webhooks.WebhookReceiver.UniqueEvents | src/loadtest/correctness/receiver.ts:88-93 | the loop returns the first usable delivery of each id, in order of arrival |
| Webhooks.UniqueIsSeen | src/loadtest/correctness/receiver.ts:88-93 | de-duplication keeps exactly the events that arrived at least once |
| Webhooks.UniqueDistinct | src/loadtest/correctness/receiver.ts:88-93 | no event is kept twice |
| Webhooks.ReceiverAgrees | src/loadtest/correctness/checks.ts:693-698 | with the last event delivered, the best-ranked status is the API's, exactly unless an unranked status follows a heard acceptance |
| Webhooks.WebhooksConverge | src/loadtest/correctness/checks.ts:140-151 | for collections and payouts of every run, any order, loss and repetition of deliveries that includes the last event gives the API's status |
| Addressing.EventsReachTheirOwners | src/loadtest/simulator/simulator.ts:748-759 | in every run at all each event is in the feed of its owner under the type of what happened; only a received transfer is told to its recipient |
| Webhooks.ReceiverChoosesExactly | src/loadtest/correctness/checks.ts:693-698 | whatever goes by a reference, a status is chosen exactly if it was heard before every other of its rank and nothing under the reference ranks higher |
| Failures.ReferenceShared | src/loadtest/correctness/checks.ts:693-698 | a run of a fresh simulator: a settled collection under the same reference makes an accepted purchase look settled |
| Paging.FollowingSeesAll | src/loadtest/simulator/simulator.ts:1155-1188 | a client that follows the cursors it is handed until it gets none has seen each of its transactions exactly once, in order, whatever happens between its requests |
| Paging.FollowingHearsAll | src/loadtest/simulator/simulator.ts:1190-1203 | a client that follows the event ids it is handed until it gets none has heard each of its events exactly once, in order |
| Paging.AfterContinues | src/loadtest/simulator/simulator.ts:1190-1203 | the id a page hands out leads to the page right behind it, also in a longer feed |
| Paging.CursorGathers | src/loadtest/simulator/simulator.ts:1172-1187 | a client that sends back each cursor it is handed, one state after the other, gathers slice after slice of the listings, and is handed none exactly where the slices end |
| Paging.FeedGathers | src/loadtest/simulator/simulator.ts:1190-1203 | the same for a client that sends back the last event id it was handed |
| Paging.TransfersHaveNoFilter | src/loadtest/simulator/simulator.ts:1164-1169 | two of the accepted kind filters match no payment |
| RateLimit.RateLimiter.TakeRateToken | src/loadtest/simulator/simulator.ts:420-436 | refill, then a token or a refusal with a waiting time, for one key only |
| RateLimit.WindowBound | src/loadtest/simulator/simulator.ts:420-436 | in any window a key is let through at most one bucketful and the window's refill, however keys are mixed |
| RateLimit.WaitingSuffices | src/loadtest/simulator/simulator.ts:428-433 | after the advertised waiting time an undisturbed caller is let through, exactly if the rate is at least one per second |
| RateLimit.SlowNeverAccepts | src/loadtest/simulator/simulator.ts:424-433 | with a slower rate nothing is ever let through |
| RaceBug.OverlappingDebitsDrift | src/loadtest/simulator/simulator.ts:565-569 | two overlapping debits of the planted race drift the wallet by exactly the first amount |
| RaceBug.UndisturbedDebitIsExact | src/loadtest/simulator/simulator.ts:565-569 | without an overlap the race leaves no drift |
| EvidencePack.SafePathsNeverCollide | src/loadtest/compliance/pack.ts:89-99 | a safe path resolves inside the extraction directory, and two different ones never to the same place |
| EvidencePack.AssemblePack | src/loadtest/compliance/pack.ts:128-181 | assembling succeeds exactly for safe, unreserved, distinct paths, and builds the archive, manifest and sums of the sorted files |
| EvidencePack.VerifyPack | src/loadtest/compliance/pack.ts:193-287 | the verdict is ok exactly if paths, manifest, listed files, archive and sums all agree |
| TamperEvidence.SumsParse | src/loadtest/compliance/pack.ts:158-165 | printed SHA256SUMS lines parse back to the printed map |
| TamperEvidence.VerifiesExactly | src/loadtest/compliance/pack.ts:128-181 | verification accepts an assembled pack exactly if its paths are single lines and no file poses as the readme |
| TamperEvidence.TamperingShows | src/loadtest/compliance/pack.ts:193-287 | a verified archive with a recorded manifest hash holds exactly the issued files, nothing added or removed, and sums that say the same |
| TamperEvidence.OrderDoesNotMatter | src/loadtest/compliance/pack.ts:137-153 | a pack depends on the set of its files alone, when no two paths tie |
| TamperEvidence.OrderMattersExactly | src/loadtest/compliance/pack.ts:137-153 | acceptable files give one pack in whatever order they come, exactly if no two of their paths tie |
| LoadPlan.Split | src/domain/load-plan.ts:122-129 | each slice is its share of at least a second, and the first longest takes the remainder |
| LoadPlan.BuildStages | src/domain/load-plan.ts:133-160 | the stages of each profile, with their durations and targets |
| LoadPlan.StagesAddUp | src/domain/load-plan.ts:122-160 | every stage lasts a second or more, and the stages last exactly the plan's duration iff it has a second for each, ten-second stress plans aside |
| LoadPlan.StageArea | src/domain/load-slo.ts:88-97 | a stage's area is its ramp summed second by second |
| LoadPlan.ExpectedRequests | src/domain/load-slo.ts:88-97 | the loop computes the rounded area under the ramp |
| LoadPlan.ExpectedWithinPeak | src/domain/load-slo.ts:88-97 | no valid plan is expected to send more than its peak rate throughout |
| LoadPlan.PeakIsHighest | src/domain/load-plan.ts:162-165 | the peak is reached by a stage and exceeded by none |
| LoadPlan.FitTier | src/loadtest/programme.ts:213-254 | what is reduced and reported, and that the fitted plan stays under its capped peak exactly under the stated condition |
| LoadPlan.FittedNeverAbove | src/loadtest/programme.ts:202-206 | a fitted plan stays under its peak exactly from 1 up, from 2 up for stress, from twice the base rate up for spikes |
| RefreshTokens.AuthService.Login | src/services/auth/auth.service.ts:62-88 | a sign-in opens a fresh family with one live token, or is refused |
| RefreshTokens.AuthService.Refresh | src/services/auth/auth.service.ts:90-128 | refusal, reuse detection or rotation, with the whole new table |
| RefreshTokens.AuthService.Look | src/services/auth/auth.service.ts:90-107 | the first query of a refresh: refusal, reuse found, or the row to go on with |
| RefreshTokens.AuthService.Go | src/services/auth/auth.service.ts:109-120 | the next query of a refresh under way: the user is read, the family burnt, or the token rotated by the row found earlier, whatever has become of it |
| RefreshTokens.AuthService.Logout | src/services/auth/auth.service.ts:130-139 | every unrevoked token of the user is revoked, others keep their times |
| RefreshTokens.AuthService.PruneExpired | src/repositories/users.repo.ts:175-180 | exactly the long-expired rows go, and references to them are cleared |
| RefreshTokens.ActKeeps | src/repositories/users.repo.ts:136-173 | every call keeps each family a chain in which only the last token can be live |
| RefreshTokens.OneLiveTokenPerFamily | src/services/auth/auth.service.ts:90-128 | in every serial run, of two tokens of a family the earlier is revoked and leads to the very next one |
| RefreshTokens.BurntForever | src/services/auth/auth.service.ts:96-107 | once a revoked unexpired token is presented, its family never issues a token again in any continuation |
| RefreshTokens.LogoutKills | src/services/auth/auth.service.ts:130-139 | signing out burns every family of the user |
| RefreshTokens.RefreshExactly | src/services/auth/auth.service.ts:90-128 | a token is issued exactly for a stored, unexpired, unrevoked token of an active user, and takes its place |
| RefreshRaces.UndisturbedIsWhole | src/services/auth/auth.service.ts:90-128 | a refresh that nothing interrupts does what the whole call does |
| RefreshRaces.RotatesExactly | src/repositories/users.repo.ts:136-158 | a rotation leaves its family one live token exactly if every other token of the family was revoked already |
| RefreshRaces.NeverForksExactly | src/services/auth/auth.service.ts:90-128 | in every run of interleaved refreshes no family ever has two live tokens, exactly if no rotation runs beside a live token of its family |
| RefreshRaces.TwoLiveTokens | src/services/auth/auth.service.ts:90-128 | a run from an empty table: two refreshes of one token are both answered and leave two live tokens |
| RefreshRaces.DeadForGoodExactly | src/services/auth/auth.service.ts:96-120 | a burnt family stays dead through every continuation exactly if no refresh of it is on its way to rotating |
| RefreshRaces.BurntFamilyRevives | src/repositories/users.repo.ts:136-167 | a run from an empty table: a rotation held up revives a family that was burnt meanwhile |
| Luhn.LuhnValid | src/domain/load-test-data.ts:70-84 | the loop decides exactly the check of Annex B of ISO/IEC 7812-1 on 12 to 19 digits |
| Luhn.SingleDigitErrorDetected | src/domain/load-test-data.ts:70-84 | any single wrong digit of a valid number is caught |
| Luhn.AdjacentSwapDetected | src/domain/load-test-data.ts:70-84 | a swap of unequal neighbours of a valid number goes unnoticed exactly for 0 and 9 |
| Luhn.UniqueCheckDigit | src/domain/load-test-data.ts:70-84 | every number of 11 to 18 digits has exactly one check digit that makes it valid |

## Left out

- Duplicates.NeverAppliedTwice: holds of runs that start no payment in its gap, because others do duplicate; NeverDoubledExactly is the exact condition over runs, DuplicatedExactly step by step.
- Batches.ItemsPaidOnce: holds of the same runs, for the same reason.
- DailyLimits.OutwardNeverExceeds: holds of runs that take each call through its gap undisturbed, because others overstep (LimitOverstepped); OutwardExactly is the exact condition over runs.
- Settlements.RunsAddUp: holds of runs whose collections leave their recipients something, because others break it (UnpaidItemCounted, SmallCollectionOverspends); RunsAddUpExactly and SolventExactly are the exact conditions.
- Isolation.ResetIsolates: resets between calls; a reset while a request is being executed, whose continuation then writes into the emptied state, is not modelled.
- Lifecycle.CompletedExactlyWhenFinal: assumes resolve delays whose two timers stay in order, as do StepMoves, DrainedAtRest and WebhooksConverge; PromisesExactly shows for each of the four that this is the exact condition.
- Lifecycle.StuckForever: assumes the same delays, because with others a half-way timer may still change the status; NeverCompletesExactly holds for all.
- RefreshTokens.AuthService.Login: one step, although the source reads the user before it inserts the token; a sign-in shares no family with anything under way.
- TamperEvidence.TamperingShows: relative to a hash that tells the presented files from the issued ones, stated for the bytes in play because no hash to 64 digits is injective on all texts.
- LoadPlan.FitTier: rates and ceilings are whole numbers.
- LoadPlan.Split: fractions are exact reals, not binary floating point.
- RateLimit.WindowBound: tokens are exact reals, and the rate stays the same over the window.
- Paging.FollowingSeesAll: without a status filter; with one, a payment that changes status between pages shifts the rest.
- Payment objects live in a sequence and are named by position; the JavaScript references to them from the map, the timers and suspended calls are those positions.
- Numbers are unbounded; amounts beyond 2^53, where doubles lose whole pesewas, are not modelled.
- Timers with equal due times fire in the order of scheduling; how Node groups timers of equal delay is not modelled.
- Requests stand as the JSON schemas accept them; the schemas' own rejections, body size and content type are not modelled.
- SHA-256 of canonical JSON, as the hash of request bodies, is the body itself; signatures are a verdict that ties an event id to its body.
- Views of payments are the payment records; formatting, notes, timestamps and the fields that only echo the request are not modelled.
- Authentication, permissions, the order of middleware, injected latency and error replies before a handler runs, and the counters.
- Checkouts, quotes, wallet and limit views, payment methods, lookups by reference and settlement-run listings: reads or records that move no money.
- The deliberate defects for the security checks, and the broken idempotency mode.
- Webhook delivery over the network, its retries and delays: any sequence of deliveries is allowed instead.
- Zip, JSON and UTF-8 are lossless and text stands for its bytes; entry times, lone surrogates and the special object key `__proto__` are not modelled.
- Passwords, access tokens, audit entries and the database's own concurrency; users are the set of active ones.
- Report building, exporters, the dashboard, the scheduler and run executor, and the control library.
