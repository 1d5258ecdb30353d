# Fillwire: a verified model

Fillwire executes one approved stock intent at a time through an unreliable gateway, records the
market data it trades on, and shares a few rate and key limits with other processes. This project
models the parts whose correctness spans several operations, and proves what they promise.

**The executor** (`internal/exec`). Modules `Prices`, `Intents`, `Machine`, `Caps` and `Decisions`
hold the price grid, the intent, the state machine, the mirror of the remote caps and the decision
rule. `Runs` and `Acceptance` follow every journal an executor can write. `Gateway` is the test
gateway with its faults. `Executors` has the executor, its journal and its loop as objects proved to
follow functions on the whole system; `Conduct` and `Rules` say what the decision rule, the state
machine and the gateway mean, independently of how they are computed. `Protocol` lets that system
run under any list of events: ticks, crashes at any write or send, restarts, changing faults,
executions at the broker, and ledger deliveries in any order. `Safety`, `Completeness` and
`Conservation` say what every such run keeps, `Origins` and `Conduct` where each of its sends comes
from, and `Ticks` what a tick gets done.
`Openings` has the exact intents whose decisions are never refused. `Ledger` and `Reconciled` are the
three-way reconciliation of journal, ledger and broker, `Identified` the orders a journal knows,
`Refreshable` exactly when a reconciliation goes through, `Reordered` its repetition on a reordered
snapshot, and `Refreshes` the runs in which only a reconciliation can report completeness. `Sim`,
`FillRules` and `SimRules` are the simulator, what its two fill rules execute, and how they relate.

**Files** (`internal/exec/journal.go`, `internal/book/evidence.go`). `Lines` is the shared reasoning
about newline-terminated records; `JournalBytes` and `Evidence` cut files at any byte.

**The order book** (`internal/book`). `Tracking` is the continuity tracker both programs share,
`Cursors` what its cursors are worth, `Continuity` the volume accounting of its tapes. `Recording`
and `Replaying` are the two programs, `Silences` what the one says of silent streams, `Shown` what
the other shows, and `Playback`, `EveryLine` and `Recovery` the theorems that replay reconstructs
what was recorded.

**Shared limits.** `Approval` is the single flight of the approval key
(`internal/reader/approval.go`), `Provenance` where its keys come from, `Providers` the key each
provider presents and rejects, `Limiter` the declaration limiter (`internal/quote/limits.go`).
`Texts` holds what several modules share: white space and the trading day's clock.

## Assumptions

- Idempotency keys are terms instead of texts, and the state digest is the state itself: key
  formatting and the digest are injective.
- A codec decodes what it encodes and puts no newline inside a record (`Lines.Faithful`). For
  evidence, no strict prefix of a record decodes, a record starts with a brace, and a newline after
  a record is space (`Evidence.TornSafe`).
- `ParseFrame` is a parameter; a frame it accepts holds at least one record, and a trade's text
  determines its cumulative volume. Trades that reach the simulator have a price and a quantity of
  at least 1.
- For the approval key: lock tokens are unique, clocks run at the same rate, the store runs one
  request at a time, and the issuer honours its context. A request may run and lose its answer.
- Codes, times and quantities are unbounded integers.

## What the source does not guarantee

Each of these comes with an input that shows it and the exact condition.

- `Validate` accepts an authorized position outside its own inventory range. Then the decision rule
  can size a submit that the caps check refuses (`Acceptance.OutOfRangePositionIsRefused`). An intent
  is never refused exactly when its target fits the far end of the range
  (`Openings.NeverRefusedExactlyWhen`).
- Inside one recorded frame the lines of ended silences are written after the tracker moved and
  before the frame's own line, so recorder and replayer can differ between those lines
  (`EveryLine.TrackersDifferAfterAStaleLine`). `EveryLine.EveryLineOfACall` says after which lines
  they are equal; after every whole call they are.
- After a reconnect, a trade that was already heard can restart the tape
  (`Continuity.RedeliveryRestartsTheTape`); it does exactly when `Continuity.RedeliveryOfOne` says.
- Two crashes inside two consecutive opening lines make an evidence file unreadable
  (`Recovery.TwoTornOpeningsAreCorrupt`, `Recovery.TwoDeadRecordersLoseTheFile`);
  `Recovery.CutsAreRecovered` gives the exact condition for every file.

## Model

| member | source | states |
|---|---|---|
| `Prices.GridIsTheTable` | internal/exec/tick.go:3-24 | which prices are on the exchange’s grid, band by band |
| `Prices.FloorTickIsGreatest` | internal/exec/tick.go:27-32 | the result is the greatest grid price at or below the price, over all seven bands |
| `Prices.CeilTickIsLeast` | internal/exec/tick.go:35-43 | the result is the least grid price at or above the price |
| `Prices.StepUpIsAdjacent` | internal/exec/tick.go:46-51 | a step up lands on the next grid price, or on the cap when that comes first |
| `Prices.StepDownIsAdjacent` | internal/exec/tick.go:46-51 | a step down lands on the previous grid price, or on the cap |
| `Prices.StepPassesOne` | internal/exec/tick.go:46-51 | one step leaves exactly one grid price fewer between the price and the cap |
| `Prices.WalkReachesCap` | internal/exec/tick.go:46-51 | walking reaches the cap in exactly the grid distance and never passes it |
| `Intents.CapIsBestGridPrice` | internal/exec/intent.go:156-161 | the cap is the grid price nearest the limit on its safe side |
| `Intents.TargetIsLargestThatFits` | internal/exec/intent.go:168-180 | a quantity is at most the target if and only if it fits quantity, notional at the cap and position room |
| `Intents.ValidatesExactly` | internal/exec/intent.go:88-142 | an intent validates if and only if its numbers are within their bounds, its range is one, the cap is a price within the notional, and the position leaves room for a share |
| `Caps.FollowToRoot` | internal/exec/exposure.go:38-49 | the loop finds the root of a lineage, with the cycle guard |
| `Caps.MeasureExposure` | internal/exec/exposure.go:52-63 | the loop computes the high-water marks of every lineage |
| `Caps.AddUp` | internal/exec/exposure.go:69-86 | adding the marks in any iteration order gives their total |
| `Caps.MeasureRoom` | internal/exec/exposure.go:69-86 | the room left to a lineage after all others |
| `Caps.CheckCaps` | internal/exec/exposure.go:90-121 | the refusal E1 would give to a child: quantity, notional, and both ends of the inventory range |
| `Caps.RoomIsExact` | internal/exec/exposure.go:69-121 | when the sums fit so far, a child passes the caps check if and only if it is within the room left to its lineage and the far end of the inventory range holds, which a position in range gives |
| `Caps.RootIsASubmit` | internal/exec/exposure.go:38-49 | in a chained history a key roots at a submit at or before it, through earlier children only, so the cycle guard never fires |
| `Caps.ExposureAfterSend` | internal/exec/exposure.go:52-63 | a send raises exactly the mark of the lineage it was judged by |
| `Caps.MarkCoversChild` | internal/exec/exposure.go:52-63 | every child is within the mark of its lineage |
| `Caps.TotalAfterSend` | internal/exec/exposure.go:90-121 | the total after a send is the one the caps check judged |
| `Caps.SubmitsAreCounted` | internal/exec/exposure.go:52-63 | a submit of at least one share adds at least one to the summed quantity |
| `Decisions.MakeDecision` | internal/exec/machine.go:348-444 | the imperative decision agrees on every state and input with the decision function, whose meaning the next seven rows state |
| `Conduct.StopsExactlyWhen` | internal/exec/machine.go:372-390 | resolved and unfinished, with sending enabled, the executor takes its order back, or ends the intent when there is none, at a full target, a kill, the deadline, 30 seconds of silence or an earlier refusal, the first of these being the reason; and for no other reason, but that no better price or room is left |
| `Conduct.DisabledDecides` | internal/exec/machine.go:359-364 | with sending disabled only a full target without an order is acted on |
| `Conduct.OpensWhenItShould` | internal/exec/machine.go:426-443 | when it may trade and has no order, it submits if one share fits the room, and ends the intent otherwise |
| `Conduct.MovesWhenItShould` | internal/exec/machine.go:396-431 | an order that has rested a full step is amended, or taken back at its cap, without room or past the caps |
| `Conduct.WaitsOnlyWhen` | internal/exec/machine.go:391-428 | it waits only when the broker is ahead of the ledger, the order is resting or the book is not fresh |
| `Conduct.SubmitNeeds` | internal/exec/machine.go:391-443 | a submit needs a fresh book, time, an open switch and no refusal, carries at most what is missing, and stands at the near touch held to the cap |
| `Conduct.AmendNeeds` | internal/exec/machine.go:396-431 | an amend needs the same and a rested order, moves it by at most one tick towards the cap and never adds shares |
| `Origins.EverySendWasDecided` | internal/exec/executor.go:123-160 | in every run each journaled send was decided by one pass, in the state the lines before it replay to |
| `Conduct.EverySendWasAuthorised` | internal/exec/machine.go:348-444 | in every run each journaled send was decided with sending enabled and nothing unresolved; one with shares before the deadline, with the kill switch open, after no refusal, on a fresh book, at a proper price |
| `Conduct.NothingNewAfterKillOrDeadline` | internal/exec/machine.go:378-382 | with the kill switch engaged, or a pass at or past the deadline, no event journals a send with shares |
| `Conduct.AmendsRest` | internal/exec/machine.go:233-237 | in every run an amend comes a full step or more after the last send with shares |
| `Conduct.HaltsAndEndsAreFinal` | internal/exec/machine.go:193-322 | in every run no shares are sent after a refusal or a deferred cancel, and an ended intent keeps its reason and records only late fills |
| `Conduct.AcceptsExactly` | internal/exec/machine.go:193-322 | exactly which records a state accepts, whoever wrote them |
| `Conduct.AnswersMean` | internal/exec/machine.go:246-268 | what each answer makes of order, halt and end, and that everything else stays unresolved |
| `Conduct.ViewsMean` | internal/exec/machine.go:269-290 | what a broker’s view makes of them, and that its filled quantity only grows |
| `Acceptance.FitIsLargest` | internal/exec/machine.go:459-477 | the quantity found is the largest that fits rest, room and cap, at a price within the cap and no worse than the asked one |
| `Acceptance.DecisionsAreAccepted` | internal/exec/machine.go:348-444 | a record decided in a reachable state is accepted by caps and transition if and only if a submit also fits the far end of the inventory range; an authorized position in range makes it so |
| `Openings.NeverRefusedExactlyWhen` | internal/exec/intent.go:88-142 | a valid intent never decides a record that caps and transition refuse, in any run, if and only if its target fits the far end of the inventory range |
| `Openings.PositionInRangeSuffices` | internal/exec/intent.go:88-142 | an authorized position inside the range is enough for that |
| `Acceptance.OutcomesAreAccepted` | internal/exec/executor.go:165-174 | whatever the gateway answers, the outcome record of a committed send is accepted |
| `Acceptance.OutOfRangePositionIsRefused` | internal/exec/intent.go:88-142 | an intent that validates with its position outside the range makes a decided submit fail the caps check |
| `Acceptance.OrdersStayPriced` | internal/exec/machine.go:269-290 | with priced views the order in hand always has a price of at least 1 |
| `Acceptance.CapsHoldInEveryRun` | internal/exec/exposure.go:52-121 | in every run the summed marks stay within quantity, notional and inventory, and there are at most max_quantity submits |
| `Acceptance.LineagesAreRooted` | internal/exec/exposure.go:38-49 | in every run every child roots at a submit that is not later |
| `Acceptance.ChildrenAreSmall` | internal/exec/exposure.go:52-63 | in every run each child alone fits quantity and notional caps |
| `Acceptance.PastCapsBranchIsDead` | internal/exec/machine.go:402-423 | with views that report the named child’s own price and no more than its quantity, the past-caps cancel is never decided |
| `Acceptance.RunsStayOnGrid` | internal/exec/machine.go:409-443 | with on-grid books and views every price sent in a run is on the grid |
| `Runs.SendKeepsSound` | internal/exec/machine.go:210-245 | a committed send keeps numbering, caps, bounds and the single unresolved child |
| `Runs.OutcomeKeepsSound` | internal/exec/machine.go:246-268 | every outcome keeps them |
| `Runs.RunIsSound` | internal/exec/machine.go:193-322 | every executor run keeps the whole invariant |
| `Gateway.FakeGateway.Violate` | internal/exec/exectest/fake.go:62-65 | a broken rule is appended to the record of violations |
| `Gateway.FakeGateway.Apply` | internal/exec/exectest/fake.go:116-137 | the book-keeping of a submit, amend or cancel as the broker function has it, whose meaning is `Rules.ApplyMeans` and `Rules.SendRecordsExactly` |
| `Rules.SendRecordsExactly` | internal/exec/exectest/fake.go:67-123 | a send is recorded as breaking each of the five rules exactly when it breaks it at the gateway it finds, once; and a send that arrives is listed |
| `Rules.FaultsMean` | internal/exec/exectest/fake.go:83-111 | what each fault does to a new child that arrives: whether it is applied, what is remembered, what comes back, and that it happens once |
| `Rules.OtherCallsRecordExactly` | internal/exec/exectest/fake.go:140-172 | an execution is recorded exactly when it passes the target, and nothing else is ever recorded |
| `Rules.ApplyMeans` | internal/exec/exectest/fake.go:116-137 | a submit stands in its own terms, an amend takes key and price and never adds shares, a cancel leaves nothing, and a child for an absent order changes nothing |
| `Rules.ResendChangesNothing` | internal/exec/exectest/fake.go:76-79 | a key answered once is answered the same again and touches no order |
| `Gateway.FakeGateway.Receive` | internal/exec/exectest/fake.go:72-82 | a child that arrives is recorded with the rules it breaks, and answered again if its key was answered before |
| `Gateway.FakeGateway.Settle` | internal/exec/exectest/fake.go:95-112 | the book-keeping of a child that arrived and the answer under the remaining faults |
| `Gateway.FakeGateway.Send` | internal/exec/exectest/fake.go:67-112 | one send under every fault: lost, killed before or after, uncertain, refused, answered again |
| `Gateway.FakeGateway.Query` | internal/exec/exectest/fake.go:140-150 | a query reports the view and counts as the reconcile of an unanswered send |
| `Gateway.FakeGateway.Fill` | internal/exec/exectest/fake.go:154-172 | an execution of at most the open quantity at the order’s price |
| `Executors.Journal.Append` | internal/exec/journal.go:160-173 | a record is written and synced, lost, kept unsynced, or the process dies |
| `Executors.Executor.OnBook` | internal/exec/executor.go:95 | the book replaces the touch and nothing else |
| `Executors.Executor.SetLedgerComplete` | internal/exec/executor.go:71 | the completeness decision is recorded in memory and nothing else changes |
| `Executors.Executor.Propose` | internal/exec/executor.go:185-193 | the caps of new submits and amends, then the transition; nothing is written |
| `Executors.Executor.Keep` | internal/exec/executor.go:194-199 | journal first and state after; a failed append latches, a kill leaves no process |
| `Executors.Executor.Commit` | internal/exec/executor.go:181-200 | caps, transition, journal, then the new state; a journal error latches |
| `Executors.Executor.Start` | internal/exec/executor.go:89-91 | the first record |
| `Executors.Executor.OnFill` | internal/exec/executor.go:99-116 | a repeated or foreign fill changes nothing; an overfill is reported |
| `Ticks.FillsAreRecordedOnce` | internal/exec/executor.go:99-116 | a new fill of a sent key is recorded, once; a repeated or foreign one, or one before the start, changes nothing and is no error |
| `Executors.Executor.Send` | internal/exec/executor.go:165-174 | the gateway call and the outcome record; a lost or misaddressed answer is uncertain |
| `Executors.Executor.Reconcile` | internal/exec/executor.go:123-136 | the query of an unresolved child and its record |
| `Executors.Executor.SendAndSettle` | internal/exec/executor.go:146-160 | a sent child takes ledger completeness back and ends the tick |
| `Executors.Executor.Perform` | internal/exec/executor.go:137-154 | a decided record, with the completeness gate before a finish |
| `Executors.Executor.Pass` | internal/exec/executor.go:123-160 | one iteration of the loop |
| `Executors.Executor.Tick` | internal/exec/executor.go:123-160 | at most eight iterations, stopped by idleness, an error or a kill |
| `Ticks.TicksWorkUntilDone` | internal/exec/executor.go:123-160 | a tick that returns nil has left nothing to do, or has sent and waits for the ledger, or has journaled something in each of its eight passes |
| `Ticks.StopsWithinATick` | internal/exec/executor.go:123-160 | one tick after a kill or the deadline, with gateway and disk working, no order is live, whatever was unresolved; and the intent has ended unless a ledger check is due |
| `Ticks.LatchedStaysStopped` | internal/exec/executor.go:123-200 | an executor that latched an error journals and sends nothing more, whatever happens short of a crash |
| `Protocol.SendEffects` | internal/exec/exectest/fake.go:67-137 | a ready send breaks no rule under any fault, and its answer tells no lie |
| `Protocol.AnswerIsLinked` | internal/exec/machine.go:246-268 | after the outcome record the executor’s belief matches the gateway |
| `Protocol.CommitIsSafe` | internal/exec/executor.go:181-200 | a commit keeps the system safe whatever becomes of the write |
| `Protocol.RunIsSafe` | internal/exec/executor.go:123-200 | every run of ticks, crashes, restarts, faults, executions and deliveries keeps the system invariant |
| `Safety.NoRunBreaksARule` | internal/exec/exectest/fake.go:67-172 | in no run is a violation recorded, no key arrives twice, and filled plus open never pass the target |
| `Rules.EveryArrivalIsClean` | internal/exec/exectest/fake.go:67-137 | in every run, and without the record of violations: what reaches the gateway is one child of a pass, with nothing unanswered, under a new key and within the cap, a submit finding no order live and room below the target |
| `Safety.JournalIsAlwaysSound` | internal/exec/journal.go:118-131 | in every run the durable journal replays and is that of an executor run |
| `Safety.JournalRunsAhead` | internal/exec/executor.go:146-200 | replay gives the state in memory or one record more, which the gateway has not seen; every child the gateway saw is journaled |
| `Safety.UnresolvedIsNeverResent` | internal/exec/machine.go:355-358 | while a child is unresolved a pass can only query |
| `Safety.RestartRebuilds` | internal/exec/executor.go:81-83 | a crash and a restart give exactly the durable state |
| `Refreshes.ReachableIsTheSum` | internal/exec/executor.go:99-200 | in every reachable system a running process counts exactly the fills it holds |
| `Refreshes.AlongIsARun` | cmd/execmock/live.go:30-123 | any run in which only refreshes report completeness is a run of the protocol, and safe |
| `Refreshes.StepMarks` | cmd/execmock/live.go:112-123 | completeness is recorded by no step but a refresh that returned nil with journal, ledger and broker in agreement and every order terminal |
| `Refreshes.DoneNeedsARefresh` | internal/exec/executor.go:137-154 | with the ledger required, an ended intent has a finish record behind a refresh that returned nil: the three-way agreement held, every journaled order was terminal, nothing was sent since, and no further order is known at the finish; an accepted cancel alone never ends it |
| `Conservation.FillsAreConserved` | internal/exec/machine.go:291-309 | with a late, reordered or repeated genuine ledger, the counted fills are a set of the broker’s executions, never beyond the target, and all of it once all are delivered |
| `Conservation.SpendIsApproved` | internal/exec/intent.go:156-180 | a buy’s executed notional is at most target times cap, at most the approved notional; a sell brings in at least its quantity at the cap |
| `Lines.IndexNewline` | internal/exec/journal.go:138-157 | the first newline at or after an offset |
| `Lines.EachLine` | internal/exec/journal.go:138-157 | the byte loop agrees with the line-by-line reading |
| `Lines.ScanOfLines` | internal/exec/journal.go:138-157 | a file cut after its whole lines is accepted if and only if they fold, with their count and end offset |
| `Lines.PartialWrite` | internal/exec/journal.go:160-173 | a partly written line adds a line only when all of it arrived |
| `JournalBytes.ReadingIsReplay` | internal/exec/journal.go:118-131 | reading bytes is replaying their whole lines |
| `JournalBytes.JournalReplaysExactly` | internal/exec/journal.go:116-157 | a journal replays if and only if every line is of the version, in sequence, and leads from the digest before it to its own |
| `JournalBytes.JournalFile.Open` | internal/exec/journal.go:60-92 | on any bytes: opening succeeds if and only if every whole line decodes, follows in sequence and replays; then it has the replayed state and cuts the torn tail off, otherwise it reports corruption and leaves the file alone |
| `JournalBytes.JournalFile.Append` | internal/exec/journal.go:160-173 | whatever part of the line arrives, the file holds the old lines and at most the new one |
| `JournalBytes.CrashKeepsAPrefix` | internal/exec/journal.go:118-173 | any byte prefix of a sound journal reopens to the lines that ended before the cut |
| `Ledger.ReadBrokerKeys` | internal/exec/ledger.go:35-79 | the loops find the identity of every accepted order, or that two differ |
| `Ledger.OnLedgerFill` | internal/exec/ledger.go:88-115 | a row is attributed by number and day, or stops the executor |
| `Ledger.ReadRows` | cmd/execmock/live.go:79-96 | the loop over the rows of an order |
| `Ledger.ReadOrders` | cmd/execmock/live.go:72-113 | the loop over orders, with the broker’s reading of each |
| `Ledger.RefreshLedger` | cmd/execmock/live.go:30-123 | the whole refresh as the refresh function has it; when it returns nil is `Refreshable.RefreshReturnsNilExactlyWhen` |
| `Refreshable.RefreshReturnsNilExactlyWhen` | cmd/execmock/live.go:46-123 | a refresh returns nil if and only if nothing is unresolved, journal and snapshot hold the same orders and the working one is among them, every row fits its order and contradicts nothing recorded, the broker has executed what the ledger shows, no recorded fill is missing, and the new ones stay within the target and reach the disk |
| `Refreshable.StrayRowsStopIt` | internal/exec/ledger.go:88-115 | a row that fits no journaled order, or contradicts a recorded fill, latches the executor |
| `Identified.OrdersAreNamed` | internal/exec/ledger.go:35-79 | the journal’s orders are exactly those that an accepted, numbered answer to a submit or amend names, by number and Korean day; there are none to be had exactly when such an answer names nothing or an order that another key has |
| `Reconciled.FilledIsAlwaysTheSum` | internal/exec/machine.go:291-309 | in every state that can be reached, filled quantity and notional are the sums over the recorded fills |
| `Reconciled.RefreshAgrees` | cmd/execmock/live.go:30-123 | after a nil return journal and ledger orders are in bijection, the fills are the snapshot’s, filled equals the ledger’s and the broker’s sums, and complete means all terminal |
| `Reconciled.RefreshingAgainMovesNothing` | cmd/execmock/live.go:72-113 | a refresh from any snapshot that shows only recorded fills, whether it succeeds or fails, leaves state, journal and broker as they are; only the error latch and the completeness flag may change |
| `Reordered.ReorderedRefreshChangesNothing` | cmd/execmock/live.go:30-123 | after a refresh that returned nil, a refresh from the same snapshot with its orders and the rows of each order in any other order returns nil again and leaves state, journal, error latch and completeness as they are |
| `Reconciled.RefreshIsIdempotent` | cmd/execmock/live.go:30-123 | the same refresh again returns nil and takes the same decision |
| `Reconciled.RefreshIsARun` | cmd/execmock/live.go:30-123 | a refresh is a list of protocol events, with a completeness mark exactly on nil |
| `Sim.RunOne` | internal/exec/sim/sim.go:85-189 | the simulator loop agrees with the run function |
| `Sim.HandleEvent` | internal/exec/sim/sim.go:120-163 | one replay event |
| `Sim.FillByRule` | internal/exec/sim/sim.go:106-119 | the execution a fill rule asks for and its delivery |
| `FillRules.ExecutionsFollowTheRule` | internal/exec/sim/sim.go:22-29 | what a simulation executes is, event by event, exactly what its rule says: trades strictly through the order’s price up to their own quantity, or the price reached by a trade or the opposite touch; never at or past the deadline, at the order’s own price |
| `FillRules.TheBookIsTheLatest` | internal/exec/sim/sim.go:120-145 | throughout a simulation the executor decides on the last book of the events so far, unsynced once a reconnect, a session or a silence came after it |
| `SimRules.Lockstep` | internal/exec/sim/sim.go:106-163 | the two runs are one run until the optimistic rule fills, after which that run is done filling |
| `SimRules.SimulationIsARun` | internal/exec/sim/sim.go:85-189 | a simulation is a protocol run with a genuine ledger |
| `SimRules.EveryRunIsWithinTarget` | internal/exec/sim/sim.go:85-189 | either rule breaks no gateway rule and fills at most the target |
| `SimRules.TouchIsAllOrNothing` | internal/exec/sim/sim.go:22-29 | the optimistic run fills nothing or the whole target |
| `SimRules.ThroughIsConservative` | internal/exec/sim/sim.go:22-29 | when both runs return a result the conservative one never fills more |
| `Tracking.Tracker.Reconnect` | internal/book/detect.go:87-94 | every book unsynced, every tape to be resynced |
| `Tracking.Tracker.StartDay` | internal/book/detect.go:116-123 | every book unsynced, every tape to restart |
| `Tracking.Tracker.Book` | internal/book/detect.go:125-143 | the verdict on a snapshot and the new cursor |
| `Tracking.Tracker.Trade` | internal/book/detect.go:145-184 | the verdict on a trade and the new cursor |
| `Tracking.Tracker.OnFrame` | internal/book/detect.go:98-114 | the verdicts of a frame, after the day check |
| `Tracking.BeforeIsLexicographic` | internal/book/detect.go:137-140 | hours are compared in lexicographic order |
| `Cursors.BooksNeverGoBack` | internal/book/detect.go:125-143 | over any frames and reconnects, per symbol since its last resync, the hours of applied snapshots never go back, none repeats its predecessor, and the cursor is the last |
| `Cursors.NothingNewerIsLeftOut` | internal/book/detect.go:125-143 | a first snapshot and a resync are applied; then a repeated text is a duplicate, an earlier hour a regress, and everything else is applied |
| `Cursors.VolumeDecidesTheVerdict` | internal/book/detect.go:145-184 | over any frames and reconnects, exactly which verdict a trade gets and how much volume it reports missing |
| `Cursors.DaysResetExactly` | internal/book/detect.go:98-123 | books are unsynced and tapes restarted exactly by a frame on a later Korean day than all before it |
| `Continuity.VolumeIsAccounted` | internal/book/detect.go:145-184 | per symbol since its last baseline the applied volumes strictly increase and the rise is applied plus missing less overlapped volume |
| `Continuity.RiseIsBounded` | internal/book/detect.go:145-184 | the rise is at most applied plus missing volume, equal if and only if no applied trade overlaps the one before |
| `Continuity.RedeliveryOfOne` | internal/book/detect.go:152-184 | a trade heard before changes the tape if and only if a new day is pending, or a reconnect is and the trade is behind |
| `Continuity.RedeliveryRestartsTheTape` | internal/book/detect.go:152-184 | two trades, a reconnect and the first trade again put that trade on the tape a second time and set the cursor back |
| `Continuity.RedeliveryIsSilent` | internal/book/detect.go:145-184 | trades heard before can come again in any order and number without moving anything while no reset is pending |
| `Recording.Insert` | internal/book/recorder.go:121-126 | sorted insertion by transaction and symbol |
| `Recording.Recorder.constructor` | internal/book/recorder.go:40-47 | a session opens with its session line |
| `Recording.Recorder.WriteLine` | internal/book/recorder.go:142-149 | the first write failure is kept and nothing is written after it |
| `Recording.Recorder.Arrives` | internal/book/recorder.go:82-92 | a silence not yet flagged gets its line before the frame that ends it |
| `Recording.Recorder.Frame` | internal/book/recorder.go:54-77 | a frame is tracked and recorded with its verdicts, ignored, or recorded with its error |
| `Recording.Recorder.Reconnect` | internal/book/recorder.go:96-105 | a reconnect resets the tracker and is recorded |
| `Recording.Recorder.Overdue` | internal/book/recorder.go:115-126 | the silent streams, each once, in order |
| `Recording.Recorder.Tick` | internal/book/recorder.go:109-133 | every silent stream is flagged once per silence |
| `Silences.SilencesAreMarkedOnce` | internal/book/recorder.go:82-133 | in every session a stale line follows its stream’s last frame, tells that frame’s time, comes more than the limit after it and is the only one since; and two frames further apart than the limit have one between them |
| `Silences.SecondTickFlagsNothing` | internal/book/recorder.go:109-133 | a flagged stream is not flagged again at any later time of the same silence |
| `Replaying.Replayer.UnsyncBooks` | internal/book/replay.go:199-204 | every replayed book unsynced |
| `Replaying.Replayer.Frame` | internal/book/replay.go:206-259 | verdicts recomputed and compared, records applied or counted |
| `Replaying.Replayer.SettleAll` | internal/book/replay.go:222-259 | the records of a frame applied or counted by their verdicts, in order |
| `Replaying.Replayer.Line` | internal/book/replay.go:150-195 | one line: torn, refused, or applied by kind |
| `Shown.ReplayShowsWhatWasApplied` | internal/book/replay.go:206-259 | after any evidence each book holds the sides, totals and time of its last applied snapshot, the tape has grown by the applied trades in order, and the summary is that of the verdicts |
| `Shown.EvidenceIsAcceptedExactly` | internal/book/replay.go:164-195 | decoded evidence replays if and only if every line has the known version and kind and a session line at or before it, and is counted line by line |
| `Playback.SyncedMeansTracked` | internal/book/replay.go:150-259 | after every line of any evidence a replayed book is synced if and only if the tracker’s cursor is |
| `Playback.CallReplays` | internal/book/recorder.go:54-133 | replaying the lines of one recorder call leaves the replayer’s tracker equal to the recorder’s, with no mismatch |
| `EveryLine.EveryLineOfACall` | internal/book/recorder.go:54-92 | after any number of the lines of one call: inside a parsed frame the replayer’s tracker is the recorder’s from before the call, so it equals the recorder’s if and only if the frame moves no cursor; elsewhere they are equal after every line |
| `EveryLine.EveryLineOfASession` | internal/book/recorder.go:40-133 | the same after every line of any session that follows any evidence |
| `EveryLine.TrackersDifferAfterAStaleLine` | internal/book/recorder.go:82-92 | a session, a trade and a later trade of the same symbol past the staleness limit: after the line that ends the silence the trackers differ |
| `Playback.SessionReplays` | internal/book/recorder.go:40-133 | a whole session replays after any evidence: accepted, no mismatch, equal trackers, and the tape grows by exactly the trades it applied |
| `Evidence.EvidenceFile.TerminateTornLine` | internal/book/evidence.go:96-110 | a missing last newline is added and nothing else changes |
| `Evidence.ReplayFile` | internal/book/replay.go:119-140 | the reading loop agrees with the chunk-by-chunk reading |
| `Evidence.ReopeningIsInvisible` | internal/book/evidence.go:84-110 | the newline that reopening adds changes nothing a reader sees |
| `Evidence.ReadCut` | internal/book/replay.go:119-163 | a session cut at any byte reads as its whole lines and then at most one torn line; a line missing only its newline is whole |
| `Recovery.CutsAreRecovered` | internal/book/replay.go:150-163 | sessions cut anywhere replay to the complete lines with one torn line each, unless a torn opening line follows a torn line; then the file is corrupt |
| `Recovery.WholeOpeningsRecover` | internal/book/evidence.go:84-110 | whole opening lines always recover |
| `Recovery.TwoTornOpeningsAreCorrupt` | internal/book/replay.go:152-156 | after any readable sessions, two sessions cut inside their opening lines make the whole file replay to the corruption error |
| `Recovery.TwoDeadRecordersLoseTheFile` | internal/book/evidence.go:84-110 | two recorders in a row that die inside their opening lines leave a file that replays to the corruption error |
| `Recovery.EveryRecordingReplays` | internal/book/replay.go:119-259 | any recording of any number of sessions, each stopped at any byte, replays if and only if it is recoverable, with no mismatch and the torn count |
| `Recovery.WriterLeavesACut` | internal/book/recorder.go:142-149 | what a recorder leaves, failing writer or not, is its full session cut at some byte |
| `Approval.RedisStore.Acquire` | internal/reader/approval.go:277 | set-if-absent with the lock TTL |
| `Approval.RedisStore.PublishKey` | internal/reader/approval.go:266 | publish only under the own token |
| `Approval.RedisStore.Invalidate` | internal/reader/approval.go:267 | delete the cached key only under the own token |
| `Approval.RedisStore.Release` | internal/reader/approval.go:268 | delete the lock only under the own token |
| `Approval.TenureHolds` | internal/reader/approval.go:270-333 | an attempt that acquired the lock holds it until the TTL or its release |
| `Approval.OneIssuerAtATime` | internal/reader/approval.go:327-358 | at most one REST request is under way |
| `Approval.WindowsNeverOverlap` | internal/reader/approval.go:327-358 | each REST request ends before the next begins |
| `Approval.CacheChangesUnderOwnLock` | internal/reader/approval.go:342-377 | whatever changes the cache is a publish or a clear by the holder of the lock, with no request under way, and a publish by the attempt that made the latest request |
| `Provenance.EveryKeyHasASource` | internal/reader/approval.go:279-379 | in every run, a key an attempt holds or answers with as issued was returned by the issuer to that attempt during its request and published under its own lock; one from the cache stood there, live beyond the margin and not the rejected one |
| `Provenance.CachedKeysAreIssued` | internal/reader/approval.go:358-377 | in every run, what stands in the cache was there at the start or is an issued and published key with its full time to live |
| `Provenance.KeysAreTakenExactly` | internal/reader/approval.go:295-341 | a waiting attempt or the holder takes the cached key exactly when it may, and otherwise the holder goes on to clear or to ask |
| `Provenance.LocksAreGrantedExactly` | internal/reader/approval.go:277-281 | the lock is granted exactly when none is alive, for fifteen seconds |
| `Approval.LockLasts` | internal/reader/approval.go:329-333 | until its expiry a held lock stays held by its token over any run in which that holder does not release it |
| `Providers.ReissueAvoidsThePresentedKey` | internal/reader/approval.go:193-208 | whatever all providers do meanwhile, a reissue answered from the cache never gives the key its provider presented last |
| `Providers.PresentedKeyIsRejectedNext` | internal/reader/approval.go:193-208 | the key a provider presents is the one its next reissue rejects, and that reissue is forced |
| `Approval.RejectedKeysStayOut` | internal/reader/approval.go:295-345 | over any run a forced attempt that answers from the cache, while polling or holding the lock, never answers with the key it was given to reject |
| `Limiter.DeclareLimiter.CoolDown` | internal/quote/limits.go:38-44 | the cool-down only moves forward |
| `Limiter.DeclareLimiter.Reserve` | internal/quote/limits.go:61-80 | the in-place filter, and admission or the wait |
| `Limiter.EveryWindowIsBounded` | internal/quote/limits.go:61-80 | any six consecutive admissions span a window, and admitted is exactly the last window’s |
| `Limiter.NoneBeforeCoolDown` | internal/quote/limits.go:38-73 | nothing is admitted before any cool-down given so far |
| `Limiter.WaitIsExact` | internal/quote/limits.go:72-77 | a wait is positive, asking earlier is refused with the rest of it, and when it has passed the blocking constraint has lifted |

## Left out

- Records whose kind and payload disagree, and records with two payloads: a record is one of its
  kinds with that payload.
- The text checks of `Validate` (identifiers, dates, digests of the approval): one flag of the intent.
- Error messages, log lines, metrics and alerts.
- Overflow of 64-bit sums of fill quantities and notionals.
- Journal lines the codec refuses strictly (unknown fields, trailing bytes): undecodable is one case.
- The file lock, directory syncs and read errors of `OpenJournal`.
- The poll loop, pacing, contexts and exit codes of `driveLive`; a refresh here is one step with the
  broker's readings given.
- The idempotency of number normalization for texts like a zero followed by a blank and digits: rows are
  matched by the number the source computes.
- `internal/exec/e1`, `internal/kisread`, `internal/stream` and the HTTP, websocket and Redis clients.
- In the simulator: mid prices, slippage and the other floating-point reporting, the gateway wrappers,
  and failing writes of its private journal.
- In the replayer: the events it emits and errors of the callback that receives them.
- In the recorder: the mutex (calls are atomic), the clock, and the base64 form of invalid UTF-8.
- Blank evidence lines made of other Unicode spaces than the six of ASCII.
- `singleFlight` as one method: other attempts act between any two of its requests, so it is a state
  machine over those requests; `RefreshLoop`, polling intervals and the 12-second wait are left to
  the order of events.
- The blocking `Wait` around `reserve`, the refused-token memory, the session calendar, the ingest
  sink, the command line and configuration.
