# Verified models of the warehouse scripts, the report stream and the batch list

Dafny models of the stateful algorithms of a warehouse-management backend: its load harness,
its demo seed, its streaming report download, its one-time-code scheduler, the FEFO batch list
and the goods-segregation listing. Each module follows one source component. Code that updates
variables is a `class` or a `method` proved against a specification function; the theorems are
lemmas about that function, over every input, every run and every interleaving.

`dafny verify dfyconfig.toml` checks the whole project.

| module | component |
|---|---|
| `SlotGate` | the bounded client `withSlot`, cut at its awaits, under every interleaving |
| `LoadRun` | the paced load run: sends, the pending-cancel queue, the drain, on top of `SlotGate` |
| `OversellAudit` | part (c) of `verify`: held and on-hand stock re-derived from final rows |
| `Percentile` | the two nearest-rank percentiles |
| `Ulid` | the monotonic ULID generator |
| `CsvText` | `csvOf` and an RFC 4180 reader |
| `DemoStock` | the first-fit bin allocator, the shared serial pool, the scan totals |
| `LedgerPlan` | the batched ledger seeding loop |
| `ReportSink` | the streaming CSV report: its chunks, its backpressured writes, its endings |
| `ReportText` | the report's text: cells, lines, and what a cut file shows |
| `OneTimeCode` | `nextCode`, its waits, and the server's replay rule |
| `BatchList` | the batch list: accumulate, join, FEFO sort |
| `GoodsRules`, `Segregation` | `goodsConflict` with its conflict keys, and the listing of mixed bins |
| `Sequences`, `Arithmetic` | shared vocabulary: sums, filters, stable sort, grouping, string order; division |

Instants are whole milliseconds and quantities whole milli-units, except the order interval of
`LoadRun`, which is `real` because the code divides 1000 by a rate. HTTP, SQL, HMAC and the
one-time-code hash are outside: a request is an event of the run, a clock reading is a parameter.

## Where the code and its description differ

The models follow the code. In each case a lemma gives an input on which the description fails,
and another says exactly when it holds.

- **ULID order.** An increment whose sixteen random digits are all 31 wraps to zero within the
  same millisecond, and the id goes back (`SecondCallOverflows` is such a run, `OverflowGoesBack`
  says what follows). `NextIdIsLater` is the exact condition: the next id is later if and only if
  the increment does not overflow.
- **Oversell audit, stamps.** The audit judges by stamps, not by commits. A grant is stamped when
  its transaction starts (`defaultNow()`, `src/shared/db/schema.ts` line 24), and only then waits
  for its scope's stock lock (`src/modules/inventory/reservation.service.ts` lines 1023-1037), so
  an adjustment it sees can carry a later stamp, and the audit raises a false alarm
  (`LateStampCanFalselyAlarm`: no tie, no expiry, full headroom everywhere). `VerdictByStamps` is
  the exact verdict for every run, in whatever order its stamps: nothing is reported if and only
  if, for each grant, the unreleased grants of its scope stamped at or before it are within the
  adjustments stamped at or before it. Where the stamps of a scope do cut the run between two
  commits, the audit recovers the history there (`ReconstructsHistory`).
- **Oversell audit, ties.** `Date.parse` leaves milliseconds, so several steps can share an instant.
  A tie can raise a false alarm (`TiesCanFalselyAlarm`) or hide an oversell
  (`TiesCanHideAnOversell`). With stamps in commit order the audit judges the END of each granting
  instant (`VerdictIsEndOfInstant`). The verdict is about each grant (`VerdictIsPerGrant`), and
  about overselling (`VerdictIsOversell`), when every grant is stamped in its place: of the steps
  of its own scope, those stamped by then are the ones committed by then. Other scopes do not
  matter.
- **The drain's deadline.** The comment before the drain says that what is left at the deadline is
  dropped and counted. A cancel raised after the last pass is neither sent nor recorded
  (`DeadlineLosesACancel`); a run is fully accounted if and only if nothing was raised after its
  last pass (`UnaccountedIsRaisedLate`), or, when there was none, nothing was pending at the end
  of the pacing or raised since (`UnaccountedWithoutAPass`).
- **CSV.** `csvOf` quotes a cell for a quote or a comma but not for a line feed or a carriage
  return, which section 2 of RFC 4180 does not allow bare; and a last row of one empty cell prints
  as nothing after the break before it, which rule 2 of that section lets end the file
  (`LineBreaksAreLost` has a table for each). `ReadsBackExactly`: the file reads back if and only
  if every row has a cell, no cell has a line feed or a carriage return without also having a
  quote or a comma, and the last of several rows is not one empty cell.
- **Destroyed download.** The sink's comment says that a destroyed file lacks its closing row. When
  only the last chunk was still waiting, that row has already been handed to the socket
  (`DestroyedAfterTheLastChunk`); `ClosingRowTells` says exactly when it has: when every chunk has.
  The promise that matters holds: wherever the socket cut it, a file that shows its closing row is
  the whole report (`DeliveredFileTells`).
- **Segregation lines.** A line names SKU codes, and a code is unique within a client only
  (`src/shared/db/schema.ts` line 1052). There is always exactly one line for each conflicting pair
  (`OneEntryPerPair`), but two such lines may read the same (`TwoClientsRepeatALine`). They do if
  and only if two pairs of one bin share their codes, their rule and the sentence that states their
  facts (`RepeatsOnlyWhenAlike`).
- **Scans and picks.** `scannedOf` counts every line of a picklist, `pickPicklist` only lines with a
  bin and a quantity (`BinlessLineIsScanned`); SKU by SKU the totals differ by exactly the skipped
  lines (`ScansAreNotPicks`).

## Model

| member | source | states |
|---|---|---|
| SlotGate.BoundedClient.Test | scripts/loadtest-acceptance.ts:480-485 | one pass of the wait test keeps the semaphore invariant: the caller enters exactly when a slot is free, and otherwise joins the tail of the queue |
| SlotGate.BoundedClient.Release | scripts/loadtest-acceptance.ts:488-491 | the `finally` block frees the slot and wakes exactly the queue's head, keeping the invariant |
| SlotGate.TestedKeepsInv | scripts/loadtest-acceptance.ts:481-485 | a wait test by a new or woken call keeps the invariant and starts nobody else |
| SlotGate.ReleasedKeepsInv | scripts/loadtest-acceptance.ts:488-491 | a release by a running call keeps the invariant, in particular the promise made to the woken head |
| SlotGate.StepKeepsInv | scripts/loadtest-acceptance.ts:475-492 | every call, retry and finish keeps `inFlight` equal to the running calls and within the limit, every call in exactly one place, and no wake-up lost |
| SlotGate.RunsStayBounded | scripts/loadtest-acceptance.ts:475-492 | over every interleaving the in-flight count stays in its bounds, and while anyone waits, running plus woken calls fill the limit |
| SlotGate.SaturatedWhileWaiting | scripts/loadtest-acceptance.ts:481-490 | with no woken call outstanding, somebody waits only while all slots are busy, so an idle client has no waiter |
| SlotGate.MaxInFlightIsThePeak | scripts/loadtest-acceptance.ts:484-485 | the reported `maxInFlight` is the largest in-flight count any moment of the run had |
| SlotGate.StepDoesWork | scripts/loadtest-acceptance.ts:480-492 | every step lowers one natural measure, although woken calls may be overtaken and queue again |
| SlotGate.RunsAreShort | scripts/loadtest-acceptance.ts:480-492 | a run over n jobs has at most 3n steps under any schedule |
| SlotGate.StuckRunsAreComplete | scripts/loadtest-acceptance.ts:480-492 | no deadlock: a run that cannot go on has finished every job, with an empty queue and no slot taken |
| SlotGate.NewcomerOvertakes | scripts/loadtest-acceptance.ts:481-490 | a concrete schedule in which a newcomer takes the slot a waiter was woken for: the queue is not fair |
| SlotGate.WokenInOrder | scripts/loadtest-acceptance.ts:481-490 | over every interleaving the calls are woken in the order they queued: what has queued is what has been woken followed by what waits |
| LoadRun.Runner.Sweep | scripts/loadtest-acceptance.ts:646-657 | one pass over the pending cancels sends the due ones then and there, drops the others due at the end or later, and leaves exactly the rest in order (`Decided`) |
| LoadRun.Runner.Walk | scripts/loadtest-acceptance.ts:646-656 | the marking walk sends and drops as specified and returns exactly the indices that leave, in rising order; `SweepDecides` says what that makes of each entry |
| LoadRun.Runner.RemoveFromTheBack | scripts/loadtest-acceptance.ts:657 | splicing the marked indices from the last to the first leaves exactly the unmarked entries, in order |
| LoadRun.Runner.Tick | scripts/loadtest-acceptance.ts:635-657 | one turn of the pacing loop: an order and an adjustment if due, then the sweep, which decides every entry of the queue (`Decided`), keeping every invariant of the run |
| LoadRun.Runner.Pass | scripts/loadtest-acceptance.ts:666-675 | one turn of the drain: each pending cancel is sent with its own clock reading if that finds it due, and dropped otherwise (`PassDecided`); the queue is emptied, and the loop ends exactly when nothing is in flight |
| LoadRun.Runner.Wake | scripts/loadtest-acceptance.ts:481-483 | a woken send runs its test again, keeping every invariant of the run |
| LoadRun.Runner.Settle | scripts/loadtest-acceptance.ts:488-491 | a finished send gives its slot back, keeping every invariant of the run |
| LoadRun.Runner.Raise | scripts/loadtest-acceptance.ts:563-567 | an accepted order's answer queues one cancel at the tail, keeping every invariant of the run |
| LoadRun.TurnDecides | scripts/loadtest-acceptance.ts:635-657 | after a pacing turn at `now` every queued cancel that was due has been sent at `now` and not dropped, every other one due at the end or later has been dropped and not sent, and the rest are still queued; nothing else is sent or dropped, and an order and an adjustment go out exactly when due |
| LoadRun.SweepDecides | scripts/loadtest-acceptance.ts:646-657 | the same of the sweep alone |
| LoadRun.TurnLeavesNothingDue | scripts/loadtest-acceptance.ts:636-645 | with positive intervals no order and no adjustment is still due after a turn |
| LoadRun.PassDecides | scripts/loadtest-acceptance.ts:666-675 | after a drain pass every queued cancel has been sent, stamped with its own reading, if it was due by it, and dropped otherwise; none stays, and nothing else is sent or dropped |
| LoadRun.CancelsAreTimely | scripts/loadtest-acceptance.ts:646-674 | over every run no cancellation is sent before it is due, and none is dropped while the run is pacing unless it falls due at the end or later |
| LoadRun.RaisedOnce | scripts/loadtest-acceptance.ts:563-567 | a cancellation has one due date over the whole run |
| LoadRun.QueueIsInRaiseOrder | scripts/loadtest-acceptance.ts:563-674 | over every run the queue holds what was raised and neither sent nor dropped, in the order it was raised |
| LoadRun.EventKeepsInv | scripts/loadtest-acceptance.ts:519-677 | every event of a run keeps conservation, the pacing distance and the semaphore invariant together |
| LoadRun.RunsConserve | scripts/loadtest-acceptance.ts:525-677 | over every run, whatever the clock and the answers, each raised cancel is in exactly one of sent, dropped and pending, and the client carries exactly the run's sends |
| LoadRun.CancelsAddUp | scripts/loadtest-acceptance.ts:563-567 | raised = sent + dropped + pending, at every moment |
| LoadRun.SweepKeepsInv | scripts/loadtest-acceptance.ts:646-657 | the invariant holds after every entry of the sweep, seen with the queue it is about to leave |
| LoadRun.DrainKeepsInv | scripts/loadtest-acceptance.ts:667-674 | the invariant holds after every entry of a drain pass |
| LoadRun.IdleExitIsComplete | scripts/loadtest-acceptance.ts:663-677 | a drain that ends on an idle client stops the run, and leaves nothing pending, nobody waiting and every send finished if and only if no woken call was still on its way |
| LoadRun.UnaccountedIsRaisedLate | scripts/loadtest-acceptance.ts:663-677 | cancels neither sent nor recorded are exactly those raised after the last drain pass, so the run is fully accounted if and only if there is none |
| LoadRun.UnaccountedWithoutAPass | scripts/loadtest-acceptance.ts:665-666 | when the deadline has passed before the first drain pass, what is unaccounted is the queue at the end of the pacing and what was raised since |
| LoadRun.DeadlineLosesACancel | scripts/loadtest-acceptance.ts:663-666 | a concrete run of two slots and one second of pacing whose deadline leaves a raised cancel neither sent nor dropped |
| LoadRun.KeepTheirDistance | scripts/loadtest-acceptance.ts:636-641 | in any run the i-th and j-th order are at least j - i intervals apart |
| LoadRun.AdjustsKeepTheirDistance | scripts/loadtest-acceptance.ts:642-645 | in any run the i-th and j-th adjustment are at least j - i intervals apart |
| LoadRun.NoBurst | scripts/loadtest-acceptance.ts:634-645 | any window of length D holds at most floor(D / interval) + 1 orders, even when the clock stalls or goes back |
| OversellAudit.SweepOnHand | scripts/loadtest-acceptance.ts:788-792 | on sorted deltas the early-exit loop gives the sum of ALL deltas stamped at or before the instant |
| OversellAudit.SumHeld | scripts/loadtest-acceptance.ts:793-796 | the inner grant loop sums exactly the rows created by the instant and not yet released at it |
| OversellAudit.ScopeKeySplits | scripts/loadtest-acceptance.ts:769-774 | splitting a scope key gives its two ids back, so two scopes never mix |
| OversellAudit.JudgeScope | scripts/loadtest-acceptance.ts:786-803 | the grant loop of one scope reports the judgements of its grants, in order; `ReportInFull` says what they are |
| OversellAudit.VerifyScope | scripts/loadtest-acceptance.ts:773-803 | one scope reports exactly the judgements of its own grants, each against its own rows |
| OversellAudit.Verify | scripts/loadtest-acceptance.ts:768-804 | the scope loop judges every grant of the table exactly once, against exactly its own scope's rows |
| OversellAudit.LaterStepIsInvisible | scripts/loadtest-acceptance.ts:779-795 | a later grant, adjustment or release cannot change the figures re-derived for an instant |
| OversellAudit.FiguresByStamps | scripts/loadtest-acceptance.ts:748-796 | for every run, the two figures are the adjustments stamped by the instant, and the grants stamped by it less those of them released by it |
| OversellAudit.ReconstructsHistory | scripts/loadtest-acceptance.ts:748-796 | where the stamps of a scope cut the run between two commits, the final rows give what was truly on hand there, and what was truly held together with what had expired |
| OversellAudit.JudgedByHistory | scripts/loadtest-acceptance.ts:786-803 | a row is reported exactly when its scope was over-counted, held plus expired, where its stamp cuts the run |
| OversellAudit.VerdictByStamps | scripts/loadtest-acceptance.ts:768-804 | for every run, in whatever order its stamps: nothing is reported if and only if, for each grant, the unreleased grants of its scope stamped by then are within the adjustments stamped by then |
| OversellAudit.VerdictIsEndOfInstant | scripts/loadtest-acceptance.ts:768-804 | for stamps in commit order (`NonDecreasing`), ties included: nothing is reported if and only if no granted scope is over-counted at the end of a granting instant |
| OversellAudit.AuditIsTheReport | scripts/loadtest-acceptance.ts:748-804 | what the audit returns for the tables of any run, read in any row order, is the report of that run, empty exactly when the verdict by stamps is clean |
| OversellAudit.ReportInFull | scripts/loadtest-acceptance.ts:786-804 | the report of a run, grant by grant in commit order, from the steps and their stamps alone: scope and stamp of the grant, what stands by then, and the stock by then, when the former exceeds the latter |
| OversellAudit.ViolationsSayWhatStood | scripts/loadtest-acceptance.ts:796-804 | every violation the audit returns for the tables of a run names the scope and the stamp of a grant, as `active` what then stood and as `onHand` the smaller stock; every over-stamped grant has one |
| OversellAudit.VerdictIsPerGrant | scripts/loadtest-acceptance.ts:31-37 | when every grant is stamped in its place in its scope (`Separate`): nothing is reported if and only if no grant left its scope over-counted |
| OversellAudit.VerdictIsOversell | scripts/loadtest-acceptance.ts:31-37 | under the same condition on stamps, in a run without expiries as the harness makes it: nothing is reported if and only if no grant ever took its scope past its stock |
| OversellAudit.CleanMeansNoOversell | scripts/loadtest-acceptance.ts:31-37 | under the same condition on stamps, for grants that are not negative, with or without expiries: a clean report means that no grant took its scope past its stock |
| OversellAudit.HeadroomIsEnough | scripts/loadtest-acceptance.ts:31-37 | a grant within the headroom it found does not oversell |
| OversellAudit.CheckedRunsPass | scripts/loadtest-acceptance.ts:31-37 | under the same condition on stamps, without expiries: a run whose every grant checked its headroom is reported clean |
| OversellAudit.TiesCanFalselyAlarm | scripts/loadtest-acceptance.ts:786-803 | a concrete run with full headroom everywhere that the audit reports, because two steps share a stamp |
| OversellAudit.TiesCanHideAnOversell | scripts/loadtest-acceptance.ts:786-803 | a concrete oversell the audit does not report, because two steps share a stamp |
| OversellAudit.LateStampCanFalselyAlarm | scripts/loadtest-acceptance.ts:779-803 | a concrete run with full headroom everywhere, no ties and no expiries that the audit reports, because a grant is stamped before an adjustment it saw |
| OversellAudit.ExpiryWouldFalselyAlarm | scripts/loadtest-acceptance.ts:135-139 | what turning the reaper off keeps out: were it on, a hold that expires would be read as held, and a concrete run with full headroom and every stamp in its place would be reported |
| Percentile.GateMeansShare | scripts/loadtest-acceptance.ts:810-814 | the p-th percentile is at most x if and only if at least p percent of the values are |
| Percentile.NearestRank | scripts/loadtest-acceptance.ts:810-814 | the result is one of the values, p percent of them are at most it, and fewer are below it |
| Percentile.NearestRankIsUnique | scripts/loadtest-acceptance.ts:812-813 | no other number is a nearest rank |
| Percentile.PercentilesRise | scripts/loadtest-acceptance.ts:810-814 | a larger percentage never gives a smaller percentile |
| Percentile.HundredthIsMaximum | scripts/loadtest-acceptance.ts:813 | the 100th percentile is the maximum |
| Percentile.VersionsAgree | scripts/loadtest-overview.ts:137-140 | on non-empty values the two harnesses' percentiles agree |
| Ulid.Generator.Ulid | scripts/seed-demo.ts:98-116 | one call moves the generator's state as specified and returns the text of the new state |
| Ulid.Bump | scripts/seed-demo.ts:102-104 | the carry loop increments the digits in place |
| Ulid.TimePart | scripts/seed-demo.ts:109-114 | the clock loop writes the ten base-32 characters of the clock |
| Ulid.IncrementAddsOne | scripts/seed-demo.ts:102-104 | the increment adds one to the number the digits stand for, or wraps exactly when all are 31 |
| Ulid.DigitsStandForClock | scripts/seed-demo.ts:109-114 | the written digits stand for the clock modulo 32^n |
| Ulid.RenderOrder | scripts/seed-demo.ts:93-115 | comparing two renderings as strings is comparing the numbers: the alphabet is in order |
| Ulid.IdsCompareByKey | scripts/seed-demo.ts:98-116 | ids compare as strings exactly as their 130-bit keys compare |
| Ulid.NextIdIsLater | scripts/seed-demo.ts:98-116 | the next id sorts strictly later if and only if the increment does not overflow, whatever the clock does |
| Ulid.ClockPartIsLargest | scripts/seed-demo.ts:99-108 | the clock part is the largest reading so far: steps back are absorbed |
| Ulid.IdsRise | scripts/seed-demo.ts:97-116 | over any sequence of readings without overflow the ids rise strictly, so none repeats |
| Ulid.OverflowGoesBack | scripts/seed-demo.ts:102-104 | an overflow yields an id that sorts before the previous one |
| Ulid.SecondCallOverflows | scripts/seed-demo.ts:100-106 | a concrete run of two calls that overflows |
| Ulid.IdShape | scripts/seed-demo.ts:97-116 | each id is 26 digits or capital letters other than I, L, O and U, and its first ten decode to the largest reading so far |
| Ulid.AlphabetIsCrockfords | scripts/seed-demo.ts:93 | the alphabet is the ten digits and the capitals other than I, L, O and U, in rising order |
| CsvText.SoundTablesReadBack | scripts/seed-demo.ts:362-364 | parsing by section 2 of RFC 4180, its optional last break included, what `csvOf` printed of a sound table gives the table back |
| CsvText.CsvOfIsInjective | scripts/seed-demo.ts:362-364 | two tables of sound rows, whatever their last rows, never print the same file |
| CsvText.ReadsBackExactly | scripts/seed-demo.ts:362-364 | a table reads back if and only if every row has a cell, no line feed or carriage return sits in an unquoted cell, and the last of several rows is not one empty cell |
| CsvText.LineBreaksAreLost | scripts/seed-demo.ts:362-364 | three concrete tables, a header and a row each, that do not read back: a bare line feed, a bare carriage return, one empty cell |
| DemoStock.BinAllocator.AssignBin | scripts/seed-demo.ts:483-496 | an existing home is returned unchanged; otherwise the first free bin that suits the SKU becomes its home; a refusal changes nothing |
| DemoStock.FirstFree | scripts/seed-demo.ts:492 | the first bin of the pool that is not used, or none exactly when all are |
| DemoStock.ChosenBin | scripts/seed-demo.ts:486-493 | a new home is the first bin on the walk that is free and suits the SKU: chilled for the two dairy SKUs, zone D for client goods, ambient outside zone D for all others; a SKU is refused only when every bin that suits it is used |
| DemoStock.HomesAlwaysSuit | scripts/seed-demo.ts:483-496 | over any run every home suits its SKU in that sense |
| DemoStock.AssignedStaysTidy | scripts/seed-demo.ts:296-297 | used bins stay exactly the homes, no bin is shared, and every home lies in its SKU's pool |
| DemoStock.StaysTidy | scripts/seed-demo.ts:479-496 | the same after any sequence of calls, refused ones included |
| DemoStock.HomesAreForever | scripts/seed-demo.ts:483-485 | over any run a SKU's home never changes |
| DemoStock.ServedExactlyWhenItFits | scripts/seed-demo.ts:486-495 | every call of a run is served if and only if, kind by kind, no more different SKUs ask than there are bins |
| DemoStock.SerialPool.PickPicklist | scripts/seed-demo.ts:450-469 | one picklist takes its serials off the shared pool as specified |
| DemoStock.PicksAreTheServableLines | scripts/seed-demo.ts:452-466 | the lines picked are those with a bin and a quantity, in order and as they stand, and serials go to the serial SKU only |
| DemoStock.SerialsAreConserved | scripts/seed-demo.ts:453-455 | serials handed out followed by the rest of the pool are the original pool, in order |
| DemoStock.FullExactlyWhenPoolCovers | scripts/seed-demo.ts:453-455 | every serial line gets its whole units if and only if the pool covers them all |
| DemoStock.SerialsComeOffInOrder | scripts/seed-demo.ts:839-844 | over any sequence of picklists sharing one pool the serials come off in order |
| DemoStock.NoSerialTwice | scripts/seed-demo.ts:839-844 | no serial of a duplicate-free pool is given twice |
| DemoStock.ScannedOf | scripts/seed-demo.ts:471-475 | one entry per SKU, in order of first appearance, with the SKU's total |
| DemoStock.TotalIsOfItsLines | scripts/seed-demo.ts:471-475 | a SKU's total is the sum over its own lines |
| DemoStock.TotalsAddUp | scripts/seed-demo.ts:471-475 | the totals of the SKUs add up to all the lines |
| DemoStock.ScansAreNotPicks | scripts/seed-demo.ts:450-475 | SKU by SKU, scanned = picked + skipped lines |
| DemoStock.BinlessLineIsScanned | scripts/seed-demo.ts:450-475 | a concrete line that is scanned and not picked |
| LedgerPlan.SeedLedger | scripts/loadtest-overview.ts:210-255 | whatever the batch size, the batched loop appends events 0 to `events` - 1 once each, in order, and notes exactly the picks |
| LedgerPlan.StockIsClosedForm | scripts/loadtest-overview.ts:221-250 | after any number of events a SKU's stock is 2000 per complete block plus the block in progress, and never negative |
| LedgerPlan.DrawsAreCovered | scripts/loadtest-overview.ts:221-222 | no draw ever outruns its receipts |
| LedgerPlan.WholeStock | scripts/loadtest-overview.ts:217-250 | the stock of all SKUs together is 2000 per complete block plus the block in progress |
| LedgerPlan.KindsFollowTheStock | scripts/loadtest-overview.ts:223-250 | receipts add to the stock, picks draw from it, dispatches change nothing, and there is no other event |
| LedgerPlan.BlocksOfFive | scripts/loadtest-overview.ts:221-224 | each SKU takes a whole block of five events, receive, receive, pick, pick, dispatch, then the next SKU |
| LedgerPlan.PickRowsAreTheDraws | scripts/loadtest-overview.ts:234-243 | SKU by SKU, the pick rows are the draws, one row of a thousand each |
| LedgerPlan.PickRowsCarryTheirDraw | scripts/loadtest-overview.ts:234-243 | a pick row is noted if and only if there is a draw of its SKU at its instant |
| LedgerPlan.InstantIsTheFloor | scripts/loadtest-overview.ts:220 | an instant is the exact fraction of the span, rounded down to a whole millisecond |
| LedgerPlan.OldestFirst | scripts/loadtest-overview.ts:219-220 | the instants never step back if and only if the span is not negative, or there is one event |
| LedgerPlan.InsideTheWindow | scripts/loadtest-overview.ts:207-220 | with a span that is not negative every instant lies in the window, its end excluded unless the span is zero |
| ReportSink.PlanChunks | src/modules/reporting/recall-reads.ts:535-554 | the flushing loop cuts header, rows and counted end row into non-empty chunks, losing and reordering none, 500 lines to a chunk between the first and the last |
| ReportSink.PlansAreWellClosed | src/modules/reporting/recall-reads.ts:552-553 | such a file has one closing row, at its very end |
| ReportText.QuietCell | src/shared/export/csv.ts:24-47 | a printed cell never ends a record: its quotes balance and its line breaks are inside them |
| ReportText.CellReadsBack | src/shared/export/csv.ts:24-27 | a printed text cell reads back, by section 2 of RFC 4180, as its guarded value |
| ReportText.GuardIsExact | src/shared/export/csv.ts:25 | the guard leaves no cell that a spreadsheet would execute, touches no other, and only ever puts one quote in front |
| ReportText.CountReadsBack | src/modules/reporting/recall-trace.ts:690-695 | the count of the closing row is digits that read back as the number of rows |
| ReportText.EndShows | src/modules/reporting/recall-trace.ts:690-695 | every line of the report is one record, and it starts as a closing row if and only if it is one |
| ReportText.CutShowsEndOnlyWhenWhole | src/modules/reporting/recall-reads.ts:522-526 | a cut of the report at any character, inside the closing row too, shows a closing row if and only if it is the whole report |
| ReportText.DeliveredFileTells | src/api/recall-report-sink.ts:14-18 | however a download ended, and wherever the socket cut what it was handed, the client's file shows a closing row if and only if it is the whole report |
| ReportSink.Response.Write | src/api/recall-report-sink.ts:34-64 | a write is refused on a dead socket, accepted, or left waiting with its timer and both listeners |
| ReportSink.Response.Stop | src/api/recall-report-sink.ts:46-60 | a settling write takes its timer and its listeners with it and touches no other write |
| ReportSink.Response.EmitDrain | src/api/recall-report-sink.ts:51-55 | a drain resolves each waiting write once |
| ReportSink.Response.EmitClose | src/api/recall-report-sink.ts:56-60 | a close rejects each waiting write once |
| ReportSink.Response.Finish | src/api/recall-report-sink.ts:73-85 | keeping the download's invariant, a returned run ends the response, a failed one destroys it after the headers and rethrows before them, a busy one with its retry header |
| ReportSink.DownloadsKeepInv | src/api/recall-report-sink.ts:23-85 | over every run of drains, closes, timeouts and failures, a write waits exactly while its timer and listeners are on, and what was sent is a prefix of the file |
| ReportSink.OutcomeIsExact | src/api/recall-report-sink.ts:68-85 | exactly one of: rethrown with no header and no byte; destroyed after the headers with some first chunks; ended normally with every chunk in order |
| ReportSink.EndMeansReturned | src/api/recall-report-sink.ts:73-85 | the response ends normally if and only if the run returned |
| ReportSink.HeadersOnceAndFirst | src/api/recall-report-sink.ts:25-33 | over every run the headers go out at most once, before any byte, and a failure until then is rethrown with nothing sent; the pre-byte work has succeeded by then |
| ReportSink.EveryWriteSettlesOnce | src/api/recall-report-sink.ts:34-64 | a write settles at most once, leaving no timer or listener; until then its timeout can still fire |
| ReportSink.WhatBecomesOfAWrite | src/api/recall-report-sink.ts:34-64 | while the socket lives a write sends its chunk, taken at once or not; the one that waits goes on after a drain, and a close or its timeout destroys the download |
| ReportSink.NothingSentWhenGone | src/api/recall-report-sink.ts:34-37 | once the socket is gone or the response has ended, no byte is sent any more and a write is refused |
| ReportSink.ResolvesOnlyOnAcceptOrDrain | src/api/recall-report-sink.ts:40-60 | a write resolves only by being accepted or by a drain |
| ReportSink.ClosingRowTells | src/api/recall-report-sink.ts:14-18 | at any outcome the closing row was handed over if and only if the whole file was |
| ReportSink.DestroyedAfterTheLastChunk | src/api/recall-report-sink.ts:14-18 | a concrete run in which a destroyed socket had been handed the closing row |
| OneTimeCode.Authenticator.Attempt | scripts/lib/two-step-sign-in.ts:36-41 | one pass tests and advances the last step together, as specified |
| OneTimeCode.Authenticator.NextCode | scripts/lib/two-step-sign-in.ts:34-44 | the loop uses the step of the first pass whose window is not spent, and changes nothing while it waits |
| OneTimeCode.IssueIsTheLeast | scripts/lib/two-step-sign-in.ts:37-38 | a pass issues the least step that is in the window and later than every earlier one, and waits exactly when there is none |
| OneTimeCode.NoStepTwice | scripts/lib/two-step-sign-in.ts:34-44 | under any clock and any interleaving of callers the issued steps rise strictly |
| OneTimeCode.UsedWithinWindow | scripts/lib/two-step-sign-in.ts:36-39 | when every pass reads a time step from a range, every issued step lies in that range widened by one |
| OneTimeCode.FewCodes | scripts/lib/two-step-sign-in.ts:34-44 | in any run, whatever came before and after, at most n + 2 codes are issued across n consecutive time steps |
| OneTimeCode.SleepReachesNextStep | scripts/lib/two-step-sign-in.ts:42 | the sleep always reaches a later time step |
| OneTimeCode.SleepEndsJustAfter | scripts/lib/two-step-sign-in.ts:42 | a sleep read within the refused time step ends 50 ms into the next one, a late one takes 50 ms, and none takes more than 30050 |
| OneTimeCode.StepsAreThirtySeconds | src/modules/tenancy/second-factor.ts:111-114 | a time step is thirty seconds |
| OneTimeCode.OneWaitIsEnough | scripts/lib/two-step-sign-in.ts:34-44 | under a clock that does not go back, a caller on its own waits at most once |
| OneTimeCode.FourthCodeWaits | scripts/lib/two-step-sign-in.ts:36-42 | a fourth code within one time step does wait |
| OneTimeCode.ServerTakesEveryCode | src/modules/tenancy/second-factor.ts:845-855 | the server, whose rule is one step of tolerance and no reuse, refuses none of the issued steps |
| OneTimeCode.ServerTakesNoStepTwice | src/modules/tenancy/second-factor.ts:845-855 | whatever is submitted, the server takes no step twice, and none more than one step away |
| BatchList.CompareIsFefo | src/api/inventory.controller.ts:620-631 | the comparator's sign says which batch expires first: dated before undated, then by code |
| BatchList.FefoIsStrictWeakOrder | src/api/inventory.controller.ts:620-631 | the order is irreflexive and transitive, and its ties are transitive |
| BatchList.Accumulate | src/api/inventory.controller.ts:600-603 | the map holds, for every batch, the sum of its on-hand rows, absent meaning zero |
| BatchList.ListBatches | src/api/inventory.controller.ts:600-632 | the list is a rearrangement of the batches, each with its whole on-hand, in comparator order |
| BatchList.ListIsFefo | src/api/inventory.controller.ts:620-631 | no item stands before one that expires first |
| BatchList.ListConservesStock | src/api/inventory.controller.ts:600-619 | the list's quantities add up to all on-hand rows of listed batches |
| BatchList.ItemsCarryTheirOnHand | src/api/inventory.controller.ts:600-619 | an item is listed if and only if it is one of the batches with the sum of that batch's rows and of no others |
| BatchList.ListIsOrderFree | src/api/inventory.controller.ts:620-623 | with one code per batch, any order of the batches and of the rows gives the same list |
| GoodsRules.ConflictIsSymmetric | src/shared/primitives/segregation.ts:316-338 | `goodsConflict` fires the same rule in either argument order; which one, `ConflictIsByTheBook` says |
| GoodsRules.ConflictIsByTheBook | src/shared/primitives/segregation.ts:82-112 | `goodsConflict` reports the first broken rule of the six as they are served, stated on the profile fields alone, and nothing exactly when none is broken |
| GoodsRules.FiresWhenBroken | src/shared/primitives/segregation.ts:288-311 | each rule but the first fires exactly when its served sentence is broken, in either direction |
| GoodsRules.IncompatibleReact | src/shared/primitives/hazard.ts:67-97 | two classes are incompatible exactly when one is explosive or they are one of the four reacting pairs, whichever comes first |
| GoodsRules.HazardSetIsCarried | src/shared/primitives/segregation.ts:214-232 | the hazard set holds the SKU's own class and those its DG subsidiaries count as, and no others |
| GoodsRules.PlainFoodsConflictByAllergens | src/shared/primitives/segregation.ts:303-304 | two foods with nothing else about them conflict if and only if some allergen is declared by one and not by the other |
| GoodsRules.NamedPairIsFirst | src/shared/primitives/segregation.ts:214-274 | the pair named is the first that reacts in the order of the served grid, for an edit the first the stored SKU did not have, and each class comes with the first subsidiary that gave it, or none when it is the SKU's own |
| GoodsRules.KeysAreByTheBook | src/shared/primitives/segregation.ts:348-368 | the conflict keys are one for each pair of carried classes that react, in alphabetical order, and one for each other broken rule |
| GoodsRules.FactsAreOriented | src/shared/primitives/segregation.ts:441-503 | in the facts of every conflict each side's label is about that side, and the verdict is that of its rule |
| GoodsRules.FirstPairFinds | src/shared/primitives/segregation.ts:389-398 | the pair search comes back empty exactly when every incompatible pair's key was already had |
| GoodsRules.FirstRuleFinds | src/shared/primitives/segregation.ts:399-404 | the rule search comes back empty exactly when every firing rule's key was already had |
| GoodsRules.ConflictMeansKeys | src/shared/primitives/segregation.ts:323-368 | there is a conflict if and only if there is a conflict key |
| GoodsRules.NewConflictIsExact | src/shared/primitives/segregation.ts:370-406 | the edit guard is silent if and only if every key of the edited SKU was already stored |
| GoodsRules.NewConflictIsByTheBook | src/shared/primitives/segregation.ts:379-406 | an edit is refused for the first served rule the edited SKU breaks under a key the stored one did not have, and goes through exactly when there is none |
| GoodsRules.NewConflictIsNew | src/shared/primitives/segregation.ts:379-406 | the key of that conflict is one of the edited SKU's and not one of the stored one's |
| GoodsRules.ConflictKeysAreSymmetric | src/shared/primitives/segregation.ts:348-368 | the sorted key list does not depend on the argument order |
| GoodsRules.SortedSetIsASet | src/shared/primitives/segregation.ts:179-187 | sorted sets are equal exactly when they hold the same values |
| Segregation.GroupByBin | scripts/segregation-conflicts.ts:127-130 | the map's keys are the bins in order of first appearance, and each entry holds exactly that bin's rows in order |
| Segregation.ListBin | scripts/segregation-conflicts.ts:132-152 | the nested loops give each occupant with every later one |
| Segregation.ListWith | scripts/segregation-conflicts.ts:133-151 | the inner loop pairs one occupant with each later one, in order |
| Segregation.ListTenant | scripts/segregation-conflicts.ts:127-154 | one tenant's entries, bin by bin in order of first appearance |
| Segregation.Run | scripts/segregation-conflicts.ts:83-171 | exit 2 if and only if no tenant was checked, 0 if and only if some were and no two rows of a bin break a served rule, 1 if and only if some do |
| Segregation.ListingIsAllPairs | scripts/segregation-conflicts.ts:127-154 | the grouped listing is a rearrangement of all same-bin pairs taken with no grouping |
| Segregation.ListingMembers | scripts/segregation-conflicts.ts:131-153 | an entry is listed if and only if it comes from two rows of one bin that conflict |
| Segregation.EntriesSayTheirRows | scripts/segregation-conflicts.ts:136-150 | field by field: an entry is listed if and only if two rows of one bin conflict and it names their tenant, warehouse and bin, the rule, the earlier SKU first, and the facts |
| Segregation.DetailReads | scripts/segregation-conflicts.ts:149 | the sentence gives each SKU's facts right after its own code, the earlier SKU first |
| Segregation.TidyIsSeparated | scripts/segregation-conflicts.ts:131-139 | no pair of a bin is listed if and only if no two rows of it break a served rule |
| Segregation.OneEntryPerPair | scripts/segregation-conflicts.ts:131-153 | an entry is listed exactly as many times as there are conflicting row pairs it stands for |
| Segregation.RepeatsOnlyWhenAlike | scripts/segregation-conflicts.ts:140-150 | an entry repeats if and only if two conflicting pairs of a bin share their codes, their rule and their detail sentence |
| Segregation.SharedCodeRepeats | scripts/segregation-conflicts.ts:140-150 | two SKUs of one code and profile beside a third that both conflict with give the same entry twice |
| Segregation.TwoClientsRepeatALine | scripts/segregation-conflicts.ts:136-150 | three concrete rows whose listing under `goodsConflict` repeats an entry |
| Segregation.NoPairTwice | scripts/segregation-conflicts.ts:127-154 | with codes distinct in each bin, no two SKUs are listed together twice, in either order |
| Segregation.ReportIsExact | scripts/segregation-conflicts.ts:83-154 | over all tenants, two occupants of a bin are reported together if and only if `goodsConflict` parts them |
| Segregation.ReportHasNoRepeats | scripts/segregation-conflicts.ts:97-154 | over all tenants no line is reported twice, codes being distinct in each bin |
| Segregation.PrefilterLosesNothing | scripts/segregation-conflicts.ts:114-121 | dropping rows with an empty profile in the query loses no conflict |

## Left out

- HTTP, the SQL text, HMAC signing, the one-time-code hash and random choice: foreign calls; requests are events, random draws and clock readings are parameters.
- Parity queries (a) and (b) of `verify`, the reports, the step log, token refresh and argument parsing: they would only add easy members.
- The settle wait at the end of `runLoad` (lines 681-685): a bounded poll with no state of its own.
- Floating-point rounding in percentiles, `n / events * span`, the order interval and three-decimal quantities: exact integers or reals instead.
- `pendingCancels.push` during a pass: JavaScript runs a pass to its next await without interruption, so an answer arrives between passes; the deadline of the drain is an event that may come at any time.
- FIFO fairness of `withSlot`: calls are woken in order (`WokenInOrder`), but the code allows a newcomer to overtake a woken one, and `NewcomerOvertakes` shows it.
- DemoStock.ServedExactlyWhenItFits: assumes that no bin code is in both the ambient and the chilled list, which the zones of a warehouse guarantee and the allocator does not check.
- DemoStock.ScannedOf: the rounding to three decimals does nothing on whole milli-units and is not modelled.
- OversellAudit.Verify: ids without a slash, as UUIDs are.
- OversellAudit.VerdictIsOversell: for runs without expiries, as every run the harness audits is: it turns the reaper off (`scripts/loadtest-acceptance.ts` lines 135-139), and an order hold lives seven days. `VerdictByStamps` covers every run. A committed hold counts as held, a row keeps its quantity, and is not touched again once it is released or expired; only order reservations are rows here, as in the query.
- OneTimeCode.ServerTakesEveryCode: each code arrives in order and within the time step of the pass that issued it.
- ReportText.DeliveredFileTells: the text is characters, not UTF-8 bytes; numbers, instants and dates print without quotes or line breaks; the reader asks for a completed `end` record only and does not compare its count.
- Ulid.IdsRise: readings below 32^10 ms, the ten characters' range; `IdsCompareByKey` covers every reading, with the clock part taken modulo 32^10.
- CsvText.ReadsBackExactly: the reader ends a record at a line feed, as the printer writes them, where section 2 of RFC 4180 writes CRLF, and reads a text that ends in a break as having no further record; the header is the first row of the table.
- Percentile.VersionsAgree: on empty input the acceptance version gives null (`OfValues` gives None) while the overview version indexes before the start, and is never called so.
- Clocks of `OneWaitIsEnough`: other callers of the same secret can spend the new step while one sleeps, so the bound is for a caller on its own; `NoStepTwice` covers concurrent callers.
- The map of secrets by email and re-enrolment: one secret's history is modelled, from its enrolment; two steps whose codes happen to be equal are told apart.
- Whether `Date.parse` accepts an expiry date: an expiry is a number or absent.
- The batch fields that `listBatches` copies unchanged: one opaque `facts` field.
- The loops of `segregation.ts` (`hazardSet`, the pair search, the key set) are functions with recursion, since the listing only needs their values; `conflictFacts` without the sentence of the placement gates; the number of mixed bins printed at the end is not modelled.
- Rows of `Segregation` are taken as the query returns them: positive quantity, storage bins only, one row per bin and SKU.
- Segregation.NoPairTwice: for bins whose SKU codes are distinct, which the schema guarantees within one client only; `OneEntryPerPair` and `RepeatsOnlyWhenAlike` cover every bin.
- Segregation.ReportIsExact: names pairs by their codes, so for bins whose codes are distinct; `ListingMembers` states it for every bin, pair of rows by pair of rows.
- Controllers, DTOs, wiring and the domain services behind them: thin mapping, or code that is not part of this model.
