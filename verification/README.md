# Verification of the lab platform

A Dafny model of the parts of the platform that must not go wrong, with proofs of what they guarantee:

- **Demo orders** — preview, recheck, the durable `submitting` intent, one POST, its recorded outcome, and
  reconciliation. `Trading` and `Gate` read the provider and decide; `OrderStore` holds the transactions;
  `OrderProtocol` is the state machine in which any number of calls interleave, are dropped anywhere, and
  lose replies; `OrderInvariant`, `OrderTrace` and `OrderSafety` prove what holds over every run;
  `DemoService` is the sequential program, and its trace is always a run of that state machine.
- **Replay jobs** — idempotent enqueue, outbox, at-least-once queue and workers. `JobStore`, `JobProtocol`,
  `JobInvariant`, `JobSafety`, `JobDrain`, `JobProgress` and `JobRecovery` hold the state machine and its
  theorems; `JobService` is the program (relay pass and worker turn) whose trace is always a run.
- **Valuation and replay** — `Decimals`, `Valuation`, `Experiments`, `Replay` and their laws, over arbitrary
  sleeves, quotes and observations. The result a completed job stores is this replay.
- **Key bindings** — `Binding` is the broker service of one process, `BindingLaws` what any sequence of
  syncs keeps.
- **Deployment** — `Deploy` is the controller with a failure possible at every command and a kill possible
  after every action, `DeployLog` the log it keeps and the rules of that log, `DeployLaws` what any sequence
  of checks may accept, apply and retry.
- **CSV download** — `Csv` prints the table and reads it back.

Each method that changes state is proved against a function or predicate over its old and new state; the
theorems are lemmas about those functions and about all runs built from them.

## Assumptions

- Decimals are exact reals. Division rounds to 16 decimal places, ties away from zero, and `RoundUp` rounds
  away from zero; both are assumptions about the decimal library. Clocks are integers.
- Database transactions are atomic; a commit may take effect although it reports an error. Row locks and
  unique indexes work. Fresh IDs are new. Store, submitter and reconciler share one clock.
- The broker may receive a sent order at any later time or never. A lookup by reference finds only an order
  the broker has received, and an accepting receipt is given only for a received order; replies, statuses
  and positions are otherwise arbitrary.
- The queue delivers at least once and may forget a message ID at any time, after which a repeat is a new
  message. Several relays and workers run at once.
- Digests, fingerprints and the dataset hash are opaque labels.
- One process holds the key bindings; one deployment check runs at a time (the lock), its status file is
  replaced as a whole or not at all, and its process may be killed after any action. Any command may change
  the running revision, whether it succeeds or not, and each look at the services sees a revision of its own.
  Compose runs with the settings the process has read at its start.
- A preview or execution sees the Demo key that the broker service has bound at its start; no sync comes
  between its steps in the sequential program.

## Where code and documentation differ

- `docs/demo-btc-probe.md:11` puts the recheck ceiling 0.2% above the observed ask. The code rounds that
  amount up to a cent, so the ceiling is higher unless the amount is a whole number of cents
  (`CeilingIsExactOnCents`, `CeilingMayExceed`), and always by less than a cent (`RoundUpWithinCent`).
- The spread cap of 50 basis points is tested on a rounded quotient: it also accepts spreads above the cap
  by less than 5e-17 of the bid (`SpreadTestIsExact`); `WiderSpreadPasses` shows one.
- The error message for experiment names speaks of 60 characters; the code counts bytes. A name has as many
  bytes as characters exactly when it is ASCII (`BytesCountAtLeastCharacters`); `ShortNameIsRefused` shows
  a name of 31 characters that is refused.
- `docs/deployment.md:36` says failed candidates retry after ten minutes. The status file holds a candidate
  back until 600 seconds after its failure if and only if it was written after a failure at that time or later,
  and a check that ends by itself and passes CI starts the candidate exactly if the file does not hold it back
  (`RetryWaitsExactlyWhenWritten`, and `CheckAfterFailure` for the controller). A check that ends by itself
  always tries to write; when every attempt fails, or the check is killed first, the next check retries as
  soon as it gets there: `UnwrittenFailureIsRetriedAtOnce` calls the controller twice on a host on which the
  second check starts the failed revision three seconds after the failure.
- A scheduled or requested sync stores a snapshot before it binds the key. When that commit takes effect but
  reports an error, the environment stays unbound and may later be bound by another key. Recording a read
  keeps the histories apart if and only if the environment was bound already or the commit did not take
  effect unreported (`RecordKeepsSeparation`); `UnreportedCommitMixesHistory` shows a run that mixes them.

## Model

| member | source | states |
|---|---|---|
| `OrderSafety.OrdersAreSerialized` | internal/platform/demo_strategy.go:426-455 | In every interleaving with crashes and lost replies, when a POST is sent its decision is the only unresolved one, was never sent before, and every earlier order is durably filled or rejected. |
| `OrderSafety.IntentPrecedesOrder` | internal/platform/demo_strategy.go:426-455 | A POST happens only after the intent event and the recheck's artifacts are committed, for the stored plan that the recheck confirmed. |
| `OrderSafety.OneOrderPerDecision` | internal/platform/demo_strategy.go:409-469 | Over the whole history a decision is sent at most once, and gets at most one intent and one submission outcome. |
| `OrderSafety.OrdersFollowTheReviewedPlan` | internal/platform/demo_strategy.go:414-425 | Every sent order has the reviewed account and instrument and a rechecked ask below 1.002 times the reviewed ask plus one cent. |
| `OrderSafety.StatusesAreBacked` | internal/platform/demo_strategy.go:502-525 | In every reachable state: filled means broker status 3, a positive order ID and positive positions; rejected means no positions and no broker status but 4; accepted and partially filled mean a positive order ID. |
| `OrderSafety.StepFollowsEdge` | internal/platform/demo_strategy.go:563-577 | Each step moves a status along the status graph and leaves a terminal row untouched, even for a stale reconcile. |
| `OrderSafety.StatusesAdvance` | internal/platform/demo_strategy.go:384-577 | Over a run nothing returns to ready, and filled, rejected and held decisions never change again. |
| `OrderSafety.OnlyIntentCollides` | internal/platform/platform.go:201 | Of all transactions only the intent can violate the one-active index, exactly when another decision is unresolved. |
| `OrderSafety.IntentCollision` | internal/platform/demo_strategy.go:433-442 | The intent keeps the index if and only if no other decision is active. |
| `OrderSafety.AtMostOnePending` | internal/platform/demo_strategy.go:632-657 | The reconcile loop's query never returns more than one ID, so its limit hides nothing; a key owns one decision. |
| `OrderSafety.LostIntentStrands` | internal/platform/demo_strategy.go:428-455 | An intent whose commit is not reported, or whose call ends before the POST, leaves an unresolved decision that was not sent and that no call will send. |
| `OrderSafety.StrandedForGood` | internal/platform/demo_strategy.go:428-603 | Such a decision stays so over every run, whatever is reconciled, and no order is ever sent again. |
| `OrderSafety.OutcomeIsRecordedInTime` | internal/platform/demo_strategy.go:455-469 | An outcome recorded within 30 seconds of the intent hits the row as the intent left it, and an accepted order ID becomes durable. |
| `OrderTrace.RepliesDecideTheStatus` | internal/platform/demo_strategy.go:455-469 | Whatever runs beside it, a recorded submission is accepted exactly for a 2xx with a positive order ID and the reference, rejected exactly for a 4xx other than 429, and unknown otherwise. |
| `OrderTrace.SubmissionsAreTraced` | internal/platform/demo_strategy.go:455-496 | In every reachable state a decision rejected without a broker status has a logged reply with HTTP status 400 to 499 other than 429, and one accepted without a broker status a logged 2xx. |
| `OrderTrace.EventsAreTraced` | internal/platform/demo_strategy.go:455-496 | No reply is ever logged as accepted but a 2xx, as rejected but such a 4xx, or as unknown when it is such a 4xx. |
| `OrderTrace.LookupsDecideTheStatus` | internal/platform/demo_strategy.go:502-577 | Whatever runs beside it, a lookup writes filled exactly for status 3 with positions, rejected exactly for 4 without any, partially filled for 5 and 10, accepted for 1, 2, 11 and 12, and unknown otherwise or when the order ID differs. |
| `OrderTrace.BrokerStatusesAreTraced` | internal/platform/demo_strategy.go:502-577 | In every reachable state a row with a broker status has the status that it and the positions stand for, or is unknown. |
| `OrderTrace.IntentsAreFresh` | internal/platform/demo_strategy.go:323-382 | Every intent commits less than 60 seconds after its decision was stored, and no reconcile asks about a submission that is younger than 30 seconds. |
| `OrderInvariant.StepKeepsInv` | internal/platform/demo_strategy.go:323-603 | Every step of every call keeps the global invariant that links rows, running calls, sent orders and the event log. |
| `OrderInvariant.RunKeepsInv` | internal/platform/demo_strategy.go:323-603 | The invariant holds in every state of every run. |
| `DemoService.Service.DemoPreview` | internal/platform/demo_strategy.go:323-382 | A preview stores one decision for a new key and none for a known key; a failed insert stores nothing, an unreported one everything. It sees a Demo key exactly when one is bound. Its trace is a run of the protocol. |
| `DemoService.Service.DemoExecute` | internal/platform/demo_strategy.go:409-478 | What an execution reports, stores and sends in every case: refused unless ready and unexpired, held, blocked, or one order sent after its intent, delivered or lost, with the hold, the intent, the recorded outcome and the lookup each failing before or after taking effect. A reported outcome is accepted exactly with a receipt, rejected exactly for a 4xx other than 429 and unknown otherwise, and is what the store holds. The broker service changes only by the read after a fill of an accepted order. |
| `DemoService.Service.DemoReconcile` | internal/platform/demo_strategy.go:537-595 | A reconcile leaves a submission younger than 30 seconds alone and asks nothing without a bound Demo key; otherwise the row follows the broker's status, positions and order ID, and an unanswered submission becomes unknown. A failed write leaves the store as it was. A reported fill, and nothing else, is followed by one read for Demo with the bound key. |
| `OrderStore.DemoStore.Preview` | internal/platform/demo_strategy.go:349-381 | The insert is skipped exactly when the key is taken; otherwise a row that expires after 60 seconds, or is on hold without a plan, is stored with artifacts and event. |
| `OrderStore.DemoStore.HoldDemo` | internal/platform/demo_strategy.go:384-407 | Only a ready row is held; artifacts and event are stored in any case. |
| `OrderStore.DemoStore.Intent` | internal/platform/demo_strategy.go:428-452 | The intent commits exactly for an unexpired ready row with no other active one; otherwise nothing is written. |
| `OrderStore.DemoStore.RecordDemoSubmit` | internal/platform/demo_strategy.go:455-496 | The outcome reaches only a submitting row: accepted with its order ID exactly with a receipt, rejected exactly for a 4xx other than 429, unknown otherwise; the event carries the HTTP status and agrees. |
| `OrderStore.DemoStore.SaveLookup` | internal/platform/demo_strategy.go:569-590 | A lookup is written only to an active row, with status, order ID, broker status and positions together. |
| `OrderStore.DemoStore.MarkDemoUnknown` | internal/platform/demo_strategy.go:597-615 | Only a submitting row becomes unknown. |
| `OrderStore.DemoStore.SaveArtifacts` | internal/platform/demo_strategy.go:303-316 | Exactly the nonempty artifacts are stored, in order. |
| `OrderStore.FiledKeepsExactly` | internal/platform/demo_strategy.go:303-316 | Each nonempty artifact is filed as often as it occurs, for its decision and phase, and nothing else. |
| `OrderStore.FiledKeepsOrder` | internal/platform/demo_strategy.go:303-316 | Artifacts are filed in order. |
| `Gate.EvaluateDemo` | internal/platform/demo_strategy.go:117-231 | The evaluation is the record of the 21 checks run in order and stopped at the first failure, with the artifacts read so far. |
| `Gate.DemoEvaluation.Check` | internal/platform/demo_strategy.go:93-99 | A failing check ends the evaluation with itself as the reason; a passing one extends the record. |
| `Gate.DemoEvaluation.Capture` | internal/platform/demo_strategy.go:100-104 | An empty response leaves no artifact. |
| `Gate.SumCosts` | internal/platform/demo_strategy.go:202-216 | The upfront cost is the sum over the four upfront types; the estimate is simple exactly when every type is known and every ongoing charge is zero. |
| `GateLaws.PlanExactlyWhenAllPass` | internal/platform/demo_strategy.go:93-231 | A plan exists exactly when all 21 conditions hold; otherwise the checks stop at the one failing check, which is the recorded reason. |
| `GateLaws.PlanExactlyWhenMet` | internal/platform/demo_strategy.go:93-231 | In numbers: a plan exists exactly when readings are at most 120 seconds old (quotes 30) and at most 10 ahead, cash is at least 500 and total value 10000, the account is empty, the spread is below the cap, 100 USD is allowed unlevered, and costs are of known types and at most 2; otherwise the named reason is a requirement that is not met. |
| `GateLaws.PlanRepeatsTheObservation` | internal/platform/demo_strategy.go:223-229 | A plan repeats the account, instrument, prices, times and costs it was made of. |
| `GateLaws.PlanCitesItsSources` | internal/platform/demo_strategy.go:100-104 | Every nonempty response is kept and cited by its digest, and an empty one leaves no trace. |
| `GateLaws.UpfrontOfOne` | internal/platform/demo_strategy.go:205-209 | One item's upfront cost is its value exactly for the four upfront types. |
| `GateLaws.UpfrontIsAdditive` | internal/platform/demo_strategy.go:202-216 | Upfront costs add up over lists of items. |
| `GateLaws.EvaluationIsUnique` | internal/platform/demo_strategy.go:117-231 | An observation has one evaluation. |
| `GateLaws.PlanIsSound` | internal/platform/demo_strategy.go:223-230 | A plan is an unlevered 100 USD market buy with a positive crossed-free quote, a ceiling between 1.002 times the ask and a cent more, a bounded spread and at most 2 USD upfront cost. |
| `GateLaws.SpreadTestIsExact` | internal/platform/demo_strategy.go:180-183 | The rounded spread test passes exactly the spreads below 0.005 + 5e-17 of the bid. |
| `GateLaws.WiderSpreadPasses` | internal/platform/demo_strategy.go:180-183 | A concrete spread above 50 basis points that passes. |
| `GateLaws.RoundUpWithinCent` | internal/platform/demo_strategy.go:223 | Rounding up to cents adds less than a cent and never subtracts. |
| `GateLaws.CeilingIsExactOnCents` | internal/platform/demo_strategy.go:223 | The ceiling is 0.2% above the ask if and only if that amount is a whole number of cents; otherwise it is higher. |
| `GateLaws.CeilingMayExceed` | internal/platform/demo_strategy.go:223 | A concrete ask whose ceiling is more than 0.2% higher. |
| `Trading.ReadEligibility` | internal/etoro/trading.go:255-298 | Eligibility is accepted exactly for a USD answer whose one item is the queried instrument, when the exposure and every unlevered real long configuration have nonnegative minimums; the last such minimum is kept. |
| `Trading.ReadsTheLastOffer` | internal/etoro/trading.go:284-296 | The kept minimum is that of the last configuration that is real, long, not potential and allows leverage 1; without one nothing is offered. |
| `Trading.FoldsExactlyWhen` | internal/etoro/trading.go:285 | A text matches a lower-case word exactly with its letters in either case, the long s and the Kelvin sign. |
| `Trading.ReadBook` | internal/etoro/trading.go:227-253 | The book is accepted exactly when all nine arrays are present; positions and mirrors make the first count, all nine arrays both counts together, and it is empty exactly when all nine are. |
| `Trading.ReadReceipt` | internal/etoro/trading.go:335-350 | An order ID is read exactly from a successful response whose body has a positive order ID and repeats the reference. |
| `Trading.ReadLookup` | internal/etoro/trading.go:363-400 | A lookup is accepted exactly with positive order and status IDs; its positions are the positive ones, in order. |
| `Trading.PositiveKeepsExactly` | internal/etoro/trading.go:394-398 | Filtering positions keeps each positive ID as often as it occurs, and no other. |
| `Trading.PositiveKeepsOrder` | internal/etoro/trading.go:394-398 | Filtering a list is filtering its parts, so the order is kept. |
| `JobSafety.NoJobIsLost` | internal/platform/platform.go:368-420 | In every reachable state a queued run has an unpublished outbox entry or a message in the queue, whatever failed or was delivered twice. |
| `JobSafety.EffectsHappenOnce` | internal/platform/platform.go:421-457 | For any number of deliveries a run keeps its key, version and experiment, leaves `queued` at most once and never changes afterwards. |
| `JobSafety.CompletedHoldsTheReplay` | internal/platform/platform.go:421-457 | A completed run holds exactly the one replay of its stored experiment on a dataset of its version, and the result names that experiment. |
| `JobSafety.FailsOnlyOnMismatch` | internal/platform/platform.go:437-447 | On datasets whose baseline replays, a run fails only because of a dataset version mismatch. |
| `JobSafety.HashesAreVersions` | internal/platform/platform.go:262-283 | Every stored run names the version of a dataset the platform runs with. |
| `JobSafety.OneVersionNeverFails` | internal/platform/platform.go:247-457 | With one dataset whose baseline replays no run ever fails: every run carries its version and is queued, or completed with its replay on it. |
| `JobSafety.BaselineIsNormal` | internal/lab/lab.go:77-103 | The default experiment normalizes to the named baseline. |
| `JobSafety.EnqueueIsIdempotent` | internal/platform/platform.go:247-284 | Over any interleaving, a key that was ever answered owns one run, even when its creating call was never answered, and every answered call with the key gets that run or, exactly when the stored experiment differs, a conflict. |
| `JobSafety.RetryFindsTheRun` | internal/platform/platform.go:264-284 | A retry after a lost reply is given the stored run and changes nothing. |
| `JobSafety.KeysAndEntriesAreUnique` | internal/platform/platform.go:264-283 | Every key owns one run and every run exactly one outbox entry. |
| `JobInvariant.StepKeepsInv` | internal/platform/platform.go:247-457 | Every step of enqueuers, relays, queue and workers keeps the invariant, including publishes and commits that report an error. |
| `JobInvariant.SafeStays` | internal/platform/platform.go:368-379 | A job in the queue or decided stays so: only the acknowledgement of a decided run removes a message. |
| `JobDrain.MarkingOldest` | internal/platform/platform.go:387-420 | Marking the n oldest pending jobs leaves exactly the others pending, in order. |
| `JobDrain.PassesDrain` | internal/platform/platform.go:387-420 | Each fault-free pass publishes the oldest min(20, n) jobs, so n jobs are drained after ceil(n / 20) passes and not before. |
| `JobProgress.HealthyStepsDecrease` | internal/platform/platform.go:352-420 | From a state without leftovers of a fault, every fault-free publish, mark, fetch, process, skip and acknowledgement strictly decreases one measure and leaves no leftovers. |
| `JobProgress.PipelineDrains` | internal/platform/platform.go:352-457 | From such a state some schedule decides every run, marks the outbox and empties the queue in at most twice as many steps as the measure counts. |
| `JobRecovery.EveryStateRecovers` | internal/platform/platform.go:326-385 | Every state that keeps the invariant reaches one without leftovers, in as many steps as there are stranded relays, workers and held messages, and with the same store. |
| `JobRecovery.EveryRunDrains` | internal/platform/platform.go:326-457 | From any state of any run, once faults and new work stop, the pipeline recovers and then drains. |
| `JobRecovery.EveryScheduleIsBounded` | internal/platform/platform.go:352-457 | Whatever the schedule, fault-free steps other than the relay's query are at most as many as the measure counts. |
| `JobRecovery.StuckIsFinished` | internal/platform/platform.go:352-457 | A state in which only the query is possible and no job waits for the relay is finished. |
| `JobStore.Platform.Enqueue` | internal/platform/platform.go:247-284 | One transaction: a new key stores one queued run with the key, the dataset's version and the normal experiment and one unpublished entry; a known key gives its run, or a conflict when the experiment differs; a bad experiment changes nothing. |
| `JobStore.Platform.Process` | internal/platform/platform.go:421-457 | Processing decides a queued run by its version and its replay, leaves any other run alone, and asks for redelivery only of an unknown one. |
| `JobStore.Platform.PendingBatch` | internal/platform/platform.go:390-406 | The batch is the oldest 20 unpublished runs. |
| `JobService.Service.Dispatch` | internal/platform/platform.go:387-420 | A pass publishes and marks a prefix of its batch, the whole batch unless an operation failed; its trace is a run of the pipeline. |
| `JobService.Service.Relay` | internal/platform/platform.go:407-418 | One job is marked only after its publish was confirmed; a failed publish or mark ends the pass. |
| `JobService.Service.Work` | internal/platform/platform.go:357-381 | A worker acknowledges only a handled message; an error hands it back, a lost acknowledgement leaves it to be delivered again. |
| `JobService.Service.Enqueue` | internal/platform/platform.go:247-284 | The enqueue call is a step of the pipeline whether or not its reply arrives. |
| `Valuation.Value` | internal/lab/lab.go:109-150 | A snapshot is returned exactly when cash, age policy, quote uniqueness and every position and quote are valid. It holds the sleeve's cash and positions and for each position the quote of its symbol, and its amounts follow from them; otherwise the first problem is reported. |
| `Valuation.IndexQuotes` | internal/lab/lab.go:114-120 | Indexing succeeds exactly for distinct symbols and finds each symbol's quote. |
| `Valuation.CheckMark` | internal/lab/lab.go:122-139 | The first failing condition of a position is reported, in the order of the checks. |
| `ValuationLaws.CompleteExactlyWhen` | internal/lab/lab.go:109-150 | A snapshot is complete exactly when cash is not negative, no symbol is quoted twice, and each position is a long USD position with a positive, uncrossed USD quote that is neither newer than the snapshot nor older than the policy. |
| `ValuationLaws.ReportedProblemIsReal` | internal/lab/lab.go:111-139 | Each reported problem is one of the input: a repeated symbol, a position without a quote, or a position and its quote that do not go together. |
| `Valuation.SnapshotAddsUp` | internal/lab/lab.go:141-149 | The amounts of a snapshot are the sums over its own positions and quotes. |
| `ValuationLaws.EquityMatchesCost` | internal/lab/lab.go:146-148 | Equity less unrealized result equals cash plus cost, with no rounding. |
| `ValuationLaws.MergeIsComplete` | internal/lab/lab.go:109-150 | Two sleeves held as one can be valued exactly when both can. |
| `ValuationLaws.TotalsAreAdditive` | internal/lab/lab.go:122-148 | Splitting cash and positions between sleeves preserves every total. |
| `ValuationLaws.MidWithinSpread` | internal/lab/lab.go:140 | The rounded mid lies between bid and ask if and only if some 16-place decimal does. |
| `ValuationLaws.EquityWithinSpread` | internal/lab/lab.go:140-148 | With such quotes equity lies between cash plus the bid sum and cash plus the ask sum. |
| `ValuationLaws.SixteenPlacesBracket` | internal/lab/lab.go:140 | A bid or ask with at most 16 places is enough for that. |
| `ValuationLaws.BracketIsNeeded` | internal/lab/lab.go:140-148 | For a single position the bounds hold if and only if the quote brackets a 16-place decimal. |
| `ValuationLaws.SeventeenPlacesEscape` | internal/lab/lab.go:140 | A 17-place quote whose mid rounds out of the spread. |
| `ValuationLaws.MidExact` | internal/lab/lab.go:140 | The mid is the exact midpoint if and only if the midpoint has at most 16 places. |
| `ValuationLaws.FifteenPlacesExact` | internal/lab/lab.go:140 | Quotes with at most 15 places have an exact mid. |
| `Decimals.NearestIsNearest` | internal/lab/lab.go:140 | No integer is nearer than the rounded one. |
| `Decimals.TiesGoAway` | internal/lab/lab.go:141 | Halfway between two integers the one farther from zero is taken. |
| `Decimals.DivIsNearest` | internal/lab/lab.go:141 | A quotient has 16 decimal places and is off by at most half a unit of the last. |
| `Decimals.Round4IsNearest` | internal/platform/demo_strategy.go:229 | Rounding to four places is off by at most half a unit of the last. |
| `Decimals.DivExact` | internal/lab/lab.go:174 | Division is exact when the quotient has at most 16 places. |
| `Experiments.NormalizeExperiment` | internal/lab/lab.go:77-103 | Normalization succeeds exactly within the documented ranges and yields the normal form; otherwise the first failing check is reported, with the shocks in any order. |
| `Experiments.NormalizableExactlyWhen` | internal/lab/lab.go:77-103 | An experiment is accepted exactly with an empty name or one line of at most 60 bytes, a threshold of zero or 1 to 5000, and shocks of AAPL and MSFT within 5000 basis points. |
| `Experiments.BlanksAreWhiteSpace` | internal/lab/lab.go:78 | The trimmed characters are the 25 of Unicode white space. |
| `Experiments.NormalIsIdempotent` | internal/lab/lab.go:77-103 | Normalizing twice changes nothing. |
| `Experiments.TrimSplits` | internal/lab/lab.go:78 | Trimming removes blank text at both ends and nothing else. |
| `Experiments.BytesCountAtLeastCharacters` | internal/lab/lab.go:82-84 | A name has as many bytes as characters exactly when it is ASCII, and never fewer. |
| `Experiments.ShortNameIsRefused` | internal/lab/lab.go:82-84 | A name of 31 characters that is too long in bytes. |
| `Replay.ReplayExperiment` | internal/lab/lab.go:154-200 | A replay succeeds exactly when the experiment normalizes and every sleeve can be valued at every observation; it then holds one snapshot and one decision per cell, in order, and otherwise reports the first cell that fails and why. |
| `Replay.ApplyShock` | internal/lab/lab.go:171-178 | The quotes are shocked in place: both prices times 10000 plus the basis points of their symbol over 10000, and nothing else changed. |
| `ReplayLaws.Layout` | internal/lab/lab.go:179-198 | Decision k points at snapshot k, which is sleeve k mod S at observation k div S. |
| `ReplayLaws.SnapshotsAreShocked` | internal/lab/lab.go:170-183 | Every snapshot of a replay holds its sleeve's cash and positions and for each position the dataset's quote of its symbol, with both prices scaled by (10000 + shock) / 10000 at the last observation and unchanged before it, and amounts that follow from them. |
| `ReplayLaws.ReplaysExactlyWhen` | internal/lab/lab.go:154-183 | A dataset replays exactly when every sleeve can be valued at every observation with the dataset's own quotes, none older than five minutes. |
| `ReplayLaws.ReplayIsUnique` | internal/lab/lab.go:154-200 | A dataset and an experiment have one replay. |
| `ReplayLaws.SuccessIgnoresExperiment` | internal/lab/lab.go:154-183 | Whether a dataset replays does not depend on the normal experiment. |
| `ReplayLaws.ShocksDoNotInterfere` | internal/lab/lab.go:170-183 | Two replays agree before the last observation, and at it in every sleeve that holds no differently shocked symbol. |
| `Replay.FactorIsExact` | internal/lab/lab.go:174 | The shock factor is not rounded. |
| `ReplayLaws.ReviewRule` | internal/lab/lab.go:185-196 | A sleeve under the review strategy is marked for review exactly when its cost is positive and 10000 times the absolute result is at least cost times threshold; every other one holds. |
| `ReplayLaws.ReplayReviews` | internal/lab/lab.go:179-198 | Every decision of a replay follows the review rule, with the cost of its sleeve and the result recorded beside it, and gives the reason that belongs to it. |
| `ReplayLaws.LowerThresholdAddsReviews` | internal/lab/lab.go:185-196 | Lowering the threshold only adds reviews. |
| `ReplayLaws.LowerThresholdKeepsReviews` | internal/lab/lab.go:170-198 | A replay with the same shocks and a lower threshold keeps every review. |
| `Binding.BrokerService.Create` | internal/platform/broker.go:71-96 | A service exists exactly for a 32-byte key, a long enough token and complete, distinct user keys. |
| `Binding.BrokerService.RecordSuccess` | internal/platform/broker.go:202-212 | A read for an environment bound to another key is a conflict and stores no snapshot; a key is bound only after its snapshot is committed. |
| `Binding.BrokerService.SyncClient` | internal/platform/broker.go:213-242 | Conflicted and recently tried keys are not read; only a denial leads to one read of the other environment; an error is returned exactly when a commit was not reported. |
| `Binding.BrokerService.Sync` | internal/platform/broker.go:243-263 | Which key is tried for a requested environment, whether an error is returned, and whether the environment then counts as configured. |
| `Binding.BrokerService.SyncConfigured` | internal/platform/broker.go:318-334 | The scheduled pass tries each slot's key for its bound or hinted environment. |
| `Binding.BrokerService.SyncDemoAfterOrder` | internal/platform/demo_strategy.go:618-630 | The read after an order is recorded for Demo. |
| `BindingLaws.BindingsAreWriteOnce` | internal/platform/broker.go:202-263 | Over any sequence of syncs a binding never changes and never goes away. |
| `BindingLaws.NoKeyServesBoth` | internal/platform/broker.go:202-263 | No key is bound to both environments, and no conflicted key to any. |
| `BindingLaws.ConflictIsFinal` | internal/platform/broker.go:202-242 | A conflicted key is never bound, read or stored again. |
| `BindingLaws.BoundEnvironmentIsClosed` | internal/platform/broker.go:202-263 | Once an environment is bound, its key is read for nothing else and its history takes no other key. |
| `BindingLaws.HistoryIsSeparated` | internal/platform/broker.go:172-212 | A reported snapshot comes from the bound key of its environment; any other was committed unreported in a step that found its environment unbound. |
| `BindingLaws.RecordKeepsSeparation` | internal/platform/broker.go:202-212 | Recording a read keeps every snapshot with the bound key if and only if the environment was bound already or the commit did not take effect unreported. |
| `BindingLaws.HistoryIsSeparatedExactly` | internal/platform/broker.go:172-263 | The histories are separated all along a run if and only if no snapshot was ever committed unreported while its environment was unbound. |
| `BindingLaws.UnreportedCommitMixesHistory` | internal/platform/broker.go:172-212 | A run in which an unreported commit leaves two keys' snapshots in one environment. |
| `BindingLaws.AttemptsAreSpaced` | internal/platform/broker.go:217-220 | Two reads of a key by a sync belong to one attempt or lie at least 30 seconds apart. |
| `BindingLaws.AttemptReads` | internal/platform/broker.go:213-240 | A key that is not conflicted and was not tried within 30 seconds is read for the preferred environment, and then for the other one exactly when it is not known to belong to the preferred one, the answer is 403 or 404, and its commit was reported. |
| `BindingLaws.AttemptBinds` | internal/platform/broker.go:202-240 | The key is bound to the environment whose read returned a portfolio, or conflicts when another key is bound there. |
| `BindingLaws.SyncReadsOneKey` | internal/platform/broker.go:243-263 | Which key a requested sync reads first, and for which environment; it reads no other. |
| `BindingLaws.ScheduledReadsOneKey` | internal/platform/broker.go:318-334 | A scheduled sync reads the slot's key for the environment it is bound to, or for its own. |
| `BindingLaws.AnswersAreLogged` | internal/platform/broker.go:213-240 | A read without a portfolio is logged with the broker's answer. |
| `BindingLaws.OrderReadOnlyRefreshes` | internal/platform/demo_strategy.go:618-630 | A key taken for an order stays the Demo key; the read after the order neither binds nor conflicts. |
| `BindingLaws.SingleKeyConfiguresOne` | internal/platform/broker.go:113-119 | With one key exactly one environment is configured, and the key never conflicts. |
| `BindingLaws.StepKeepsInv` | internal/platform/broker.go:202-334 | Every sync, scheduled sync and read after an order keeps the binding invariant and adds only allowed reads and events. |
| `DeployLaws.CiFollowsTheLatestRun` | scripts/deploy.py:34-38 | CI counts as passed exactly when the first matching push run with the greatest ID completed with success. |
| `DeployLaws.AcceptedWasProven` | scripts/deploy.py:178-245 | Over any sequence of checks, with a failure at any command and a kill after any action, the accepted revision had a latest CI run on the configured branch that succeeded, was built, was applied after a backup or without a database, and was then seen as the running revision. |
| `DeployLaws.OnlyReadyOrAcceptedIsApplied` | scripts/deploy.py:178-245 | A check applies only a candidate whose CI runs on the configured branch it has seen to succeed, and which it has built and backed up for, or the revision accepted before. |
| `DeployLaws.NoUnverifiedCandidateIsLeft` | scripts/deploy.py:187-199 | With an accepted revision, what a check that was not killed applied last is that revision or a candidate it has then seen running. |
| `DeployLaws.SearchAndRollbackSeeTheAccepted` | scripts/deploy.py:213-225 | A check that passes its restore block, or finishes a rollback, has seen the accepted revision running. |
| `DeployLaws.WrittenSettingsWereApplied` | scripts/deploy.py:187-226 | A status written with settings or a revision other than those the check read names a revision that this check has applied with these settings and has then seen running. |
| `DeployLaws.SettingsWereApplied` | scripts/deploy.py:178-245 | Over any sequence of checks, with failures and kills, the accepted revision in the file was applied and seen running with the settings in the file. |
| `DeployLaws.FailedIsNotRetriedAtOnce` | scripts/deploy.py:238-245 | Once a failure has been written to the status file, the next deployment started by any later check is of another revision or at least 600 seconds after that failure. |
| `DeployLaws.RetryWaitsExactlyWhenWritten` | scripts/deploy.py:190-245 | After a failed deployment the file holds the revision back until 600 seconds after the failure if and only if it was written after a failure at that time or later; then no next check starts the revision earlier, and in any case a next check that ends by itself and passes CI on it starts it exactly if the file does not hold it back at that time. |
| `DeployLaws.MarkHoldsExactlyWhenWritten` | scripts/deploy.py:190-245 | The file that a failed check leaves holds its revision back for 600 seconds if and only if the failure, or a later one, was written. |
| `DeployLaws.NextCheckObeysMark` | scripts/deploy.py:238-245 | A check starts a revision only when the mark it read allows it, and once it has passed CI and ends by itself, exactly then. |
| `DeployLaws.CheckAfterFailure` | scripts/deploy.py:209-271 | The controller's check after a failure is paused, hindered by a failed command or an unhealthy revision, or searches; if it then fetches the failed revision and CI succeeds, it starts it exactly if the file does not hold it back, which is until 600 seconds after the failure if and only if the failure was written. |
| `DeployLaws.UnwrittenFailureIsRetriedAtOnce` | scripts/deploy.py:241-271 | Two calls of the controller on a host on which the first check can neither unpack its candidate nor write the file after that: the second starts the same revision three seconds after the failure. |
| `Deploy.Deployer.Tick` | scripts/deploy.py:209-245 | One check keeps the rules whatever fails. It fails only when a command failed, the fetched head is no commit, or an applied revision was not seen running; otherwise it ends paused, running the observed revision, waiting for CI, or backing off. Unless it is paused or hindered before, it searches, and a candidate found with successful CI has passed in the log. |
| `Deploy.Deployer.DeployCandidate` | scripts/deploy.py:178-200 | The accepted revision changes only to a proven candidate; success records the previous one. |
| `Deploy.Deployer.Try` | scripts/deploy.py:238-245 | A candidate that passed CI is started at that time exactly if no mark holds it back; a failed deployment is marked with its revision and a retry time 600 seconds later, in the status file too unless that write fails. |
| `Deploy.Deployer.MarkFailure` | scripts/deploy.py:195-245 | A failure is logged and the status with its mark goes to memory and, unless the write fails, to the file. |
| `Deploy.Deployer.RollBack` | scripts/deploy.py:190-195 | A failed candidate leaves the accepted revision in the status, and that revision is applied again at once when there is one; when it was seen running the failure is marked, and otherwise the status stays as it was. |
| `Deploy.Deployer.Restore` | scripts/deploy.py:214-225 | Ends with the accepted revision seen running, applied again under the current settings when the status named others, and applying nothing else. |
| `Deploy.Deployer.Fetch` | scripts/deploy.py:96-108 | Succeeds exactly when the command does and the head is a full commit hash. |
| `Deploy.Deployer.Backup` | scripts/deploy.py:166-176 | A backup succeeds only with a dump or without a database. |
| `Deploy.Deployer.Prepare` | scripts/deploy.py:178-186 | A candidate is prepared exactly when unpacking, both notes, the build and the backup all succeed, and it is then ready. |
| `Deploy.Deployer.WaitHealthy` | scripts/deploy.py:155-164 | Waiting ends with the revision seen running, in whichever look saw it, or with an error after 45 seconds. |
| `Deploy.Deployer.Save` | scripts/deploy.py:76-78 | The memory changes first; a failed write leaves the file as it was; both are logged. |
| `Deploy.Deployer.Run` | scripts/deploy.py:248-271 | Every invocation with the lock adds one finished, lawful check to the history and starts from the status the last one left; one without it changes nothing. A candidate that its search finds is started exactly if the file it read does not hold it back. |
| `DeployLog.KillKeepsHistory` | scripts/deploy.py:209-271 | Killing a check after any of its actions leaves a lawful history, with the file as it was last written. |
| `Deploy.Deployer.constructor` | scripts/deploy.py:55-61 | A process starts from the status file that any history of checks, killed ones among them, has left. |
| `Csv.RoundTrip` | internal/httpapi/web/app.js:312-320 | A reader for section 2 of RFC 4180 recovers every table as its guarded texts. |
| `Csv.RoundTripIsExact` | internal/httpapi/web/app.js:316-320 | The guarded texts come back exactly, if and only if there is a row and no row is empty. |
| `Csv.GuardedIsHarmless` | internal/httpapi/web/app.js:312-315 | No exported text starts with =, +, @, a tab or a return, or with a minus before anything but a plain number; a text that would is changed, by an apostrophe alone. |
| `Csv.DecimalsAreUnchanged` | internal/httpapi/web/app.js:314 | Plain decimals of either sign come back unchanged. |
| `Csv.GuardCollision` | internal/httpapi/web/app.js:314 | Two texts export alike if and only if they are equal or one is the guarded form of the other. |
| `Csv.Download` | internal/httpapi/web/app.js:316-320 | The downloaded text reads back as the seven named columns and one row per snapshot, in order, with each amount under its own name. |
| `Csv.AmountsAreUnchanged` | internal/httpapi/web/app.js:319 | Every decimal amount of a snapshot appears unchanged. |

## Left out

- HTTP routes, JSON and timestamp decoding, the HTTP client: the model starts from decoded values and keeps the conditions decoding establishes.
- Encryption, HMAC and SHA-256: no cryptographic claims are made.
- Reason, summary and check texts, the stored check list, and the free-text error of a run.
- The Redis cache, metrics, dashboards, the rest of the web page, schema migrations, and the other scripts.
- Listing queries and the status counters of the broker page.
- Sticky order-ID mismatches, monotone non-terminal statuses, and an event log equal to the status history: the code keeps none of these. An event is appended even when a guarded update matches no row.
- Bindings across a restart: they live in memory for one process.
- Liveness of the order protocol: a decision whose order the broker never resolves stays unresolved. One whose order was never sent stops the strategy for good (`OrderSafety.StrandedForGood`).
- What the broker itself does with an order after its decision is settled here, for example one that it first refuses with a 4xx status.
- Interleavings inside the sequential programs: `DemoService` and `JobService` run one call at a time, with faults, and `Binding.BrokerService.SyncConfigured` is a pass with nothing between its two slots; the state machines `OrderProtocol`, `JobProtocol` and `BindingLaws` interleave any number of calls.
- The files of a release, the image and the database dump: unpacking, building and dumping are commands that succeed or fail.
- How a number or a date becomes the text of a CSV cell.
