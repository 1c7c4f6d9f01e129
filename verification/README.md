# Kaalm control plane and gateway: a verified model

Kaalm runs agents and agent tasks on Kubernetes behind an LLM gateway. This project models the parts of it where several
functions, several replicas or several writes have to agree, and proves what they keep between them:

- **Budgets.** One replica's ledger (`Ledger`), its runs (`LedgerRuns`, `LedgerView`, `LedgerMargin`, `LedgerMark`), the fleet of
  replicas (`Fleet`),
  its documented guarantee (`FleetGuarantee`, `FleetCap`), the runs that break it (`FleetBreach`) and when it holds
  (`FleetExact`), the counters they exchange through one ConfigMap (`Wire`, `Exchange`), the fleet over that exchange
  (`Propagation`), the controller's reducer (`Reducer`), the policy ladder (`Ladder`) and the budget calendar
  (`Periods`, `Decimal`). `Totals` holds sums over maps in any order.
- **Fallback.** The graph (`FallbackGraph`), the walk (`FallbackWalk`), what a whole walk guarantees (`FallbackServe`),
  the controller's validator (`FallbackValidator`), and what a validated chain means for the walk (`FallbackSound`).
- **Tasks.** The completion mailbox (`Mailbox`), the moves of a task status (`Task`), what one undisturbed pass does
  (`TaskPass`) and the reconciler with the gateway's completion endpoint acting between its writes (`TaskReconciler`).
- **Agents.** The moves of an agent status (`Agent`), activity merging and judgement (`AgentActivity`), what one
  undisturbed pass does (`AgentPass`) and the reconciler (`AgentReconciler`).
- **Agent runtime.** The reply cache and its state file (`DedupStore`).

Money is an integer number of cents, time an integer number of nanoseconds (seconds in the task machine). Clocks, reads
of other objects, upstream answers and API failures are parameters: a theorem over them holds whatever they return. A
Go map that is ranged over is visited in an arbitrary order. A reconcile pass carries the number of its writes that
succeed, so every crash point is covered; calls and patches by others land between its writes.

Where the code does not do what it is meant to, the model follows the code:

- The documented hard-enforcement guarantee (one request per replica plus unpropagated peer spend) leaves out requests
  admitted below the boundary region, which take no slot. It holds of every run of every fleet exactly when the
  configured margin reaches down to zero utilization and the ladder either blocks every spend above its lowest block
  threshold or blocks at zero and admits nothing: `FleetExact.GuaranteeIff`, on the ladder and margin alone in
  `FleetExact.LadderGuaranteeIff`. The API's margin rule admits no budget with a `hard` block that meets this:
  `FleetExact.GuaranteeUnderMarginRule`. Where the margin does not reach zero no slack repairs it,
  `FleetBreach.StatedGuaranteeFails`, and `Fleet.FleetOvershootBound` gives the bound with the missing term. The
  documentation (`docs/src/gateways/llm/budgets-and-rate-limits.md:157`) does admit a burst without precedent in the
  period as a residual, of the margin and not of the guarantee it states.
- The mark that dates the oldest unpublished settle is cleared by a publish although a later settle landed after its
  snapshot, against what `internal/gateway/budget.go:400-402` says: `LedgerMark.MarkIff` says in exactly which runs the
  mark can be trusted, and `LedgerMark.OvertakenGoesUnseen` has a settle that is unpublished for a minute while requests
  at the boundary are admitted.
- `_canonical` does not name its period, so a replica that starts in a later one is seeded with the earlier one's spend:
  `Reducer.SeedIsCurrent` says exactly when the seed is right.
- A warn or degrade policy above a block policy lifts the block: `Ladder.CapIffDominated` says for which ladders the
  lowest block threshold is a cap.
- A namespace named `period`, or starting with an underscore, does not survive the partial's wire layout:
  `Wire.PartialRoundTrip`.
- A Pod name reused while its key is still in the ConfigMap overwrites the earlier process's spend:
  `Exchange.NameReuse` says exactly when the total then falls short.
- A process that publishes again after its key was pruned is counted twice: `Exchange.ExactCount` says by how much.
- A provider the validator could not read is skipped without a problem, and with it whatever lies below:
  `FallbackSound.FailedReadHidesCycle` has a cycle passed this way, and `FallbackSound.PartlyReadCandidate` and
  `FallbackSound.PartlyReadHasOneLivePath` what such a validation still says.
- `docs/src/gateways/llm/fallback.md` reports a walk exhausted by budget refusals as 502; `exhaustionError` maps it to
  429 or 503. Neither occurs: `FallbackServe.ExhaustionReport` shows the primary's own failure is always among the
  observed classes.
- The walk leaves the primary's slot to the proxy's deferred settle when the primary was never tried:
  `FallbackServe.SlotLinearity` says exactly when.
- A retry cut short after it closed the gate is resumed without the mailbox reset:
  `TaskReconciler.TaskServer.RetryAndResume` says exactly when the new Pod finds an empty mailbox.
- An empty completion message leaves an earlier one in the mailbox: `Mailbox.MailboxSound`.
- A state file whose order list repeats a cached id is loaded with list and map out of step: `DedupStore.Load`.

## Model

| member | source | states |
|---|---|---|
| `Periods.PeriodKeyExact` | internal/gateway/budget.go:133-162 | for instants t <= u and every scheme, the keys are equal if and only if u lies before t's next period start: a key is constant up to the rollover and different from it on; where months begin is `Periods.MonthLengths`, where the count is anchored `Periods.EpochAnchor`, how a key reads `Periods.KeyReads` |
| `Periods.MonthLengths` | internal/gateway/budget.go:148-162 | the first days of consecutive months lie 31, 30, or 28 or 29 days apart, as the Gregorian calendar has it, in every year |
| `Periods.EpochAnchor` | internal/gateway/budget.go:133-162 | instant zero is January 1, 1970, day 719162 of the count and a Thursday, days of a month and of the week follow each other, and a day has 86400 seconds of a thousand million nanoseconds |
| `Periods.KeyReads` | internal/gateway/budget.go:133-145 | a monthly key is four digits, a dash and two, a daily one two more, a weekly one the year, `-W` and two digits, and they parse back to year, month, day and ISO week |
| `Periods.PeriodsAreIntervals` | internal/gateway/budget.go:133-145 | instants with one key form an interval |
| `Periods.KeyNonempty` | internal/gateway/budget.go:133-145 | only the absent scheme has the empty key |
| `Periods.RetryAfterLandsPastRollover` | internal/gateway/budget.go:504-506 | waiting out a block's Retry-After always ends in a different period |
| `Periods.MonthlyExact` | internal/gateway/budget.go:148-162 | days share a year and month exactly between a month's first day and the next one's |
| `Periods.WeeklyExact` | internal/gateway/budget.go:148-162 | days share an ISO year and week exactly between one Monday and the next |
| `Periods.DailyExact` | internal/gateway/budget.go:148-162 | days share a date only with themselves |
| `Periods.IsoWeekDefinition` | internal/gateway/budget.go:138-141 | year and week are the one pair that section 4.1.4 of ISO 8601:2004 allows: weeks start on Monday, week 1 holds January 4, and a week belongs to the last year whose week 1 is not after it |
| `Periods.DateRoundTrip` | internal/gateway/budget.go:133-162 | year, month and day of month determine the day they came from |
| `Periods.KeyFields` | internal/gateway/budget.go:133-145 | equal keys have equal fields, padding and separators included |
| `Decimal.CentsRoundTrip` | internal/gateway/budget.go:81-119 | an amount printed with two decimals parses back to itself, negative ones included |
| `Wire.ParseBudgetPartial` | internal/gateway/budget.go:95-119 | parses an entry read in any field order: only unreadable JSON rejects it, a missing period reads as the empty one, a field whose amount is unreadable is dropped alone, and underscore fields are flags |
| `Wire.PartialRoundTrip` | internal/gateway/budget.go:63-129 | a partial survives encoding and parsing exactly when no namespace in it is `period` or starts with an underscore |
| `Wire.CarriedIff` | internal/gateway/budget.go:95-119 | the namespaces lost are the one named `period` and those with a leading underscore, and no others |
| `Wire.ParsedIsCarried` | internal/gateway/budget.go:95-119 | whatever was parsed can be written back without loss |
| `Wire.FoldPartials` | internal/gateway/budget.go:675-690 | the peer view is the sum of every other readable partial of the current period, whatever the key order |
| `Wire.PeerViewColumn` | internal/gateway/budget.go:675-690 | per namespace, the peer view is the total of that namespace over those partials |
| `Totals.MergeUnion` | internal/gateway/budget.go:675-690 | sums over disjoint families of partials add up, so a fold may be split anywhere |
| `Totals.MergeCollapse` | internal/controller/modelprovider_budget.go:180-237 | replacing several partials by one holding their sum changes no sum over the rest |
| `Reducer.SortKey` | internal/controller/modelprovider_budget.go:180-237 | decides each key's fate: summed, retired, archived or ignored, and whether its entry is deleted |
| `Reducer.FoldBudgetKeys` | internal/controller/modelprovider_budget.go:180-237 | after one pass in any order the surviving entries, the three sums and the flags are functions of the content alone; only the archived period's name depends on the order |
| `Reducer.ReconcileBudget` | internal/controller/modelprovider_budget.go:83-142 | rewrites the accumulator and `_canonical`, and reports a change exactly when the data differs; what `_canonical` then says is `Reducer.CanonicalIsTotal` |
| `Reducer.ReducePreservesView` | internal/controller/modelprovider_budget.go:83-142 | a reduce pass leaves what every live Pod folds exactly as it was, for every content and live set |
| `Reducer.RewriteKeepsView` | internal/controller/modelprovider_budget.go:180-237 | moving dead Pods' spend into one accumulator is invisible to every live Pod |
| `Reducer.ReducePreservesTotal` | internal/controller/modelprovider_budget.go:83-142 | the current period's fleet total is unchanged and is what the pass reports as current |
| `Reducer.ReduceConserves` | internal/controller/modelprovider_budget.go:180-237 | current, retired and archived spend add up to everything readable in the input |
| `Reducer.RetiredIsCarried` | internal/gateway/budget.go:123-129 | the accumulator entry parses back to the retired spend it was written from |
| `Reducer.ReduceIdempotent` | internal/controller/modelprovider_budget.go:83-142 | a second pass over its own output changes nothing |
| `Reducer.CanonicalIsTotal` | internal/controller/modelprovider_budget.go:83-142 | after a pass, for every content and live set, `_canonical` reads back as the fleet's spend of that period, to the cent, and is itself no part of it |
| `Reducer.CanonicalReads` | internal/controller/modelprovider_budget.go:123-137 | what is written under `_canonical` reads back as the spend it was written from, for a seed whole, for a partial's parser without the names the layout loses |
| `Reducer.OnlyThatPeriod` | internal/controller/modelprovider_budget.go:180-237 | a pass leaves no readable entry of any other period |
| `Reducer.PassPrunes` | internal/controller/modelprovider_budget.go:180-237 | a pass leaves keys of live Pods, `_canonical` and `_retired` only, so at most two more than there are live Pods, and keeps a live Pod's entry as it is exactly when it is unreadable or of the period |
| `Reducer.SeedFromCanonical` | internal/gateway/budget.go:692-716 | a starting replica is seeded with every readable amount under `_canonical`, in any field order, and with nothing where the key is missing or unreadable |
| `Reducer.SeedIsCurrent` | internal/gateway/budget.go:692-716 | after a pass of one period, the seed of a replica that starts in another is that other period's spend if and only if the periods are one or nothing was spent |
| `Ladder.HardActive` | internal/gateway/budget_hard.go:35-45 | hard mode governs exactly when enforcement is hard and a block policy exists |
| `Ladder.FindMinBlockAt` | internal/gateway/budget_hard.go:49-57 | the loop finds the lowest block threshold, 101 without one |
| `Ladder.MinBlockAtIsLeast` | internal/gateway/budget_hard.go:49-57 | that value is a block policy's threshold and no block policy has a lower one |
| `Ladder.Decide` | internal/gateway/budget.go:485-508 | the loop picks the policy the ladder's definition names |
| `Ladder.WinnerIs` | internal/gateway/budget.go:485-508 | that is the crossed policy with the highest threshold, the first listed among equals, and none exactly when none is crossed |
| `Ladder.CapIffDominated` | internal/gateway/budget.go:485-508 | reaching the lowest block threshold blocks at every utilization from there up if and only if every other policy at or above it stands behind an equal, earlier block |
| `Ladder.WarnAboveBlockLiftsTheCap` | internal/gateway/budget.go:485-508 | block at 80 with warn at 90 blocks at 85 percent and not at 90 |
| `Ledger.PercentReached` | internal/gateway/budget.go:463-481 | a utilization of at least a threshold is the cross-multiplied inequality on amounts |
| `Ledger.SumValues` | internal/gateway/budget.go:420-429 | the cluster sum does not depend on the map's order |
| `Ledger.Evaluate` | internal/gateway/budget_hard.go:124-201 | the reading half of admission yields the ladder's winner and the verdict: blocked, throttled, unavailable, free, or slotted with the ceilings in boundary |
| `Ledger.FreeSlots` | internal/gateway/budget_hard.go:208-238 | frees exactly the admission's keys that its own token still holds |
| `Ledger.Track` | internal/gateway/budget_hard.go:81-99 | the step-by-step tracker update is the tracker the margin theorems speak of |
| `Ledger.Land` | internal/gateway/budget.go:293-300 | a cost lands on its namespace, its workload row, the tracker and the unpublished mark, and nowhere else |
| `Ledger.BudgetLedger.Current` | internal/gateway/budget.go:253-283 | the stored ledger is created or rolled to the clock's period, as `LedgerView.LedgerKept` and `LedgerView.RolloverClears` spell out |
| `Ledger.BudgetLedger.Add` | internal/gateway/budget.go:287-301 | a nonzero cost lands on the namespace, the workload row and the traffic tracker of the current period, and nothing else changes |
| `Ledger.BudgetLedger.FoldPeers` | internal/gateway/budget.go:305-311 | replaces the peer view and stamps the fold |
| `Ledger.BudgetLedger.MarkPublished` | internal/gateway/budget.go:403-413 | clears the staleness mark unless the mark is newer than the snapshot |
| `Ledger.BudgetLedger.Admit` | internal/gateway/budget_hard.go:124-201 | the whole decision, new ledger and settlement handle of an admission, for every budget, ledger and clock |
| `Ledger.BudgetLedger.Settle` | internal/gateway/budget_hard.go:208-238 | frees the admission's slots only within its own period, then lands the cost in the clock's period |
| `Ledger.BudgetLedger.OwnPartial` | internal/gateway/budget.go:386-398 | nothing is published exactly while nothing was spent; otherwise the ledger's period and flag, and amounts that parse back to the counters to the cent; the entry parses back to all of it if and only if the layout carries all its namespaces |
| `LedgerRuns.AcquireIsDisjoint` | internal/gateway/budget_hard.go:140-188 | an acquire takes at least one key and never one that is held |
| `LedgerRuns.SlotDiscipline` | internal/gateway/budget_hard.go:140-238 | in every reachable ledger each held key carries the token of exactly one unsettled admission of the period, and once those are settled no slot is left |
| `LedgerRuns.SettleFreesOnlyItsOwn` | internal/gateway/budget_hard.go:190-238 | a settle frees only keys its token holds, also across a rollover, and settling twice changes nothing more |
| `LedgerRuns.SerializedAdmission` | internal/gateway/budget_hard.go:140-188 | on a clock that does not run backwards, no two unsettled admissions of the period share a ceiling's slot |
| `LedgerRuns.LedgerConservation` | internal/gateway/budget.go:287-301 | after any run, rollovers and late settles included, a namespace's own counter is the costs landed in the period and the sum of its workload rows |
| `LedgerRuns.KeyBelongsToOne` | internal/gateway/budget.go:356-383 | a workload row of a slash-free namespace lies under no other namespace's prefix |
| `LedgerRuns.StripRows` | internal/gateway/budget.go:356-383 | the prefix loop yields the namespace's rows under their workload names, in any order |
| `LedgerRuns.StrippedTotal` | internal/gateway/budget.go:356-383 | cutting the prefix merges and loses no row |
| `LedgerRuns.WorkloadRows` | internal/gateway/budget.go:356-383 | a provider's rows are own plus peer rows |
| `LedgerRuns.RowsSumToNamespace` | internal/gateway/budget.go:356-383 | they sum to the namespace's own counter plus the peers' rows |
| `LedgerView.LedgerKept` | internal/gateway/budget.go:253-283 | within a period a provider's ledger is the one it had; beyond it tokens and staleness marks stay and spend and slots do not; a new one has neither |
| `LedgerView.RolloverClears` | internal/gateway/budget.go:262-281 | after a rollover nothing is spent on any ceiling or row, own or peers', no slot is held, and the margin is back at its floor |
| `LedgerView.RolloverReopens` | internal/gateway/budget.go:262-281 | the first request after it is blocked only by a ladder that blocks at zero, and is never throttled |
| `LedgerView.PeersAreLastFold` | internal/gateway/budget.go:303-311 | in every state of every run on a clock that does not run backwards, the peer view is what the last fold delivered if that was in the current period and empty otherwise, and its age counts from that fold |
| `LedgerView.UnavailableIff` | internal/gateway/budget_hard.go:140-188 | a request is turned away as unverified exactly when it is not blocked, would need a slot, every ceiling is free, and the last fold is missing or 30 seconds old or an unpublished mark is |
| `LedgerView.QuietBoundary` | internal/gateway/budget_hard.go:49-66 | before any traffic a request needs a slot from the lowest block threshold less the configured margin on, five points where none is configured |
| `LedgerMark.MarkIff` | internal/gateway/budget.go:400-413 | over every run on a clock that does not run backwards the mark dates the oldest settle no publish covered after every event, if and only if no publish completes with one settle covered by its snapshot and one landed after it |
| `LedgerMark.PublishMarks` | internal/gateway/budget.go:403-413 | the same of one publish: from a mark on the oldest waiting settle it leads to one exactly when all that waits lies on one side of the snapshot, and otherwise to none with a settle waiting |
| `LedgerMark.MarkWaits` | internal/gateway/budget.go:293-300 | whatever the clock does, a mark always dates a settle that waits |
| `LedgerMark.WaitingFailsClosed` | internal/gateway/budget_hard.go:140-188 | in runs in which no publish is overtaken like that a settle unpublished for over 30 seconds keeps every request from a slot |
| `LedgerMark.OvertakenGoesUnseen` | internal/gateway/budget.go:400-413 | one overtaken publish leaves a settle waiting unmarked, and a minute later a request at the boundary is admitted |
| `LedgerMargin.ObserveGrows` | internal/gateway/budget_hard.go:81-99 | the maximum becomes the larger of itself and the cost; a cost opens a bucket where there is none or the last is ten seconds old, and exactly then may raise the peak, to the closed bucket's rate |
| `LedgerMargin.MaximumIsExact` | internal/gateway/budget_hard.go:81-99 | in every reachable ledger the tracked maximum is the largest cost landed in the period |
| `LedgerMargin.MarginFloor` | internal/gateway/budget_hard.go:106-116 | the effective margin is at least the configured floor and at least one request of the tracked maximum per replica |
| `LedgerMargin.MarginCoversEveryCost` | internal/gateway/budget_hard.go:106-116 | in every reachable ledger it covers one request per replica as large as any the period has seen |
| `LedgerMargin.MarginNeverShrinks` | internal/gateway/budget_hard.go:78-116 | no event within a period narrows it |
| `LedgerMargin.AmountCoversPeers` | internal/gateway/budget_hard.go:106-116 | the widened margin covers the largest cost and 30 seconds of spend of every other replica at any rates up to the tracked peak |
| `LedgerMargin.WidenedIff` | internal/gateway/budget_hard.go:165-178 | an admission widens the margin exactly when observed traffic exceeds the configured share of a ceiling it takes a slot of |
| `LedgerMargin.RaisedIff` | internal/gateway/budget_hard.go:165-178 | in every run the published flag says whether some admission of the period did so |
| `Fleet.FleetOvershootBound` | internal/gateway/budget_hard.go:124-238 | for any number of replicas and any interleaving within a period, settled plus in-flight spend stays within the block threshold plus missing peer spend, one request per replica, and the requests in flight without a slot |
| `Fleet.UnblockedIsUnder` | internal/gateway/budget.go:463-508 | a request that is not blocked found the ceiling's spend, as its replica sees it, below the threshold |
| `Fleet.SlotFlightBound` | internal/gateway/budget_hard.go:140-188 | the slotted spend in flight at one replica is at most one request |
| `FleetExact.GuaranteeIff` | docs/src/gateways/llm/budgets-and-rate-limits.md:167-172 | for every hard budget with a block policy, over every fleet and every run of a period whose folds show no more than the others landed, the documented bound holds if and only if the lowest block threshold is within the configured margin and the ladder blocks every spend above that threshold or blocks at zero |
| `FleetExact.LadderGuaranteeIff` | internal/gateway/budget_hard.go:49-66 | for a ceiling above a hundred cents, the cluster's or one the cluster's does not undercut, that is a test on the ladder: its blocks dominate or it blocks at zero |
| `FleetExact.TestedGuaranteeIff` | internal/gateway/budget_hard.go:49-66 | for any ceilings it is a test over the finitely many spends up to the two ceilings |
| `FleetExact.DominatedGuaranteeIff` | internal/gateway/budget_hard.go:59-66 | for a ladder whose blocks dominate, the margin alone decides |
| `FleetExact.GuaranteeUnderMarginRule` | api/v1beta1/modelprovider_types.go:110-155 | of the budgets the margin rule admits, it holds of none that sets the `hard` block, and without it exactly where the default margin of 5 reaches the lowest block threshold and the ladder caps or blocks at zero |
| `FleetGuarantee.GuaranteeHolds` | internal/gateway/budget_hard.go:124-201 | with the boundary region down to zero and a capping ladder, every run of every fleet stays within the documented bound, whatever nonnegative spend its folds show |
| `FleetGuarantee.BlockedFromZero` | internal/gateway/budget.go:485-508 | a ladder that blocks at zero utilization admits no request in any run, and so keeps the bound |
| `FleetGuarantee.NeverFree` | internal/gateway/budget_hard.go:140-188 | with the boundary region down to zero every admission takes the ceiling's slot, at any ledger without negative spend |
| `FleetGuarantee.UnblockedIsCapped` | internal/gateway/budget.go:463-508 | where the ladder caps, a request that is not blocked found the ceiling's spend at or under the threshold |
| `FleetCap.DominatedCapsSpend` | internal/gateway/budget.go:485-508 | a ladder whose blocks dominate blocks every spend above its lowest block threshold, whichever ceiling is the worse |
| `FleetCap.CapsIffDominated` | internal/gateway/budget.go:463-508 | for a ceiling above a hundred cents, the cluster's or one the cluster's does not undercut, only such ladders do |
| `FleetCap.CapsSpendIsFinite` | internal/gateway/budget.go:463-508 | whether a ladder blocks every spend above the threshold is decided by the spends up to the two ceilings |
| `FleetBreach.FreshIsFree` | internal/gateway/budget_hard.go:106-188 | where the boundary region does not reach zero, every request at zero utilization is admitted without a slot |
| `FleetBreach.BurstBreaksGuarantee` | internal/gateway/budget_hard.go:140-188 | a budget whose margin does not reach zero breaks the bound, whatever its ladder, on one replica that folds nothing |
| `FleetBreach.UncappedBreaksGuarantee` | internal/gateway/budget.go:485-508 | a budget whose ladder lets some spend above the threshold through, and does not block at zero, breaks it whatever its margin: replicas that each landed one cent all fold exactly what the others landed and each admit one request more |
| `FleetBreach.StatedGuaranteeFails` | docs/src/gateways/llm/budgets-and-rate-limits.md:165-172 | where the margin does not reach zero, for every slack one replica without peers settles more than it |
| `Propagation.PropagatedOvershootBound` | internal/gateway/budget_hard.go:124-238 | over any run of admissions, settlements, publishes, folds and prunes, settled plus in-flight spend stays within the block threshold, the most that others had landed and the admitting replica had not folded, one request per replica, and the requests in flight without a slot |
| `Propagation.MissingInRuns` | internal/gateway/budget.go:597-690 | in every such run the settled spend is what a replica sees, plus what the others landed since the publish its last fold saw, less what its view counts twice; of a namespace that is what the ConfigMap counted twice when it folded and its own spend if it was pruned by then, and no part is ever negative |
| `Propagation.MissingExactly` | internal/gateway/budget.go:597-690 | while no replica publishes or folds after its key was pruned, a replica misses exactly what the others landed since the publish its last fold saw |
| `Exchange.NoUnderCount` | internal/controller/modelprovider_budget.go:180-237 | over every run of spending, publishing, pruning and late publishing, the ConfigMap's total and every replica's own-plus-peers view are at least what every process published last |
| `Exchange.ExactCount` | internal/controller/modelprovider_budget.go:180-237 | over every such run the total is exactly the sum of last publishes plus what processes had published before when they published again after being pruned; with no such publish it is exact |
| `Exchange.RunKeeps` | internal/gateway/budget.go:597-617 | the invariant behind it: keys hold their process's last publish, live counters never fall behind it, and the total covers them all |
| `Exchange.ReducePrunes` | internal/controller/modelprovider_budget.go:180-237 | in the exchange a pass drops every Pod that is not live and touches no counter and no publish on record |
| `Exchange.ViewCovers` | internal/gateway/budget.go:641-690 | a replica that folds now sees at least everything published |
| `Exchange.ViewIs` | internal/gateway/budget.go:641-690 | a fold shows exactly what the other processes published last, plus what the ConfigMap counts twice, plus the folding Pod's own publishes once its key was pruned |
| `Exchange.NameReuse` | internal/gateway/budget.go:597-617 | restarting under a name whose key is still there keeps the total at or above the last publishes exactly when it exceeded them by at least what the overwritten key held for the namespace |
| `FallbackGraph.CompatibleTransitive` | api/v1beta1/fallback.go:40-58 | format compatibility along edges holds between the ends of a path |
| `FallbackGraph.CompatibleIsTranslatable` | api/v1beta1/fallback.go:29-58 | rule 12 allows exactly same-type edges and edges between types the translator speaks, so an allowed crossing is between two different translatable formats |
| `FallbackGraph.EdgeModelMaps` | internal/gateway/fallback.go:305-311 | an edge hands on the mapped model where the map has a nonempty entry and the parent's own otherwise |
| `FallbackWalk.IsFallbackable` | internal/gateway/fallback.go:99-113 | a status ends the walk exactly when it is 2xx or a 4xx other than 401, 403 and 429 |
| `FallbackWalk.WalkState.StaticallyIneligible` | internal/gateway/fallback.go:324-361 | names no reason exactly when format, namespace, mapped model and translatability all hold; the translation cache never answers for another visit |
| `FallbackWalk.WalkState.TakeTurn` | internal/gateway/fallback.go:215-283 | one charged candidate: its admission, upstream call and the zero settle of a failure, before anything below it |
| `FallbackWalk.WalkState.TryWithFallbacks` | internal/gateway/fallback.go:193-290 | terminates on every graph and does exactly what playing the first-visit preorder of the eligible candidates below the node does |
| `FallbackWalk.WalkState.WalkChildren` | internal/gateway/fallback.go:292-318 | the same for a list of edges, each candidate asked for the edge's mapped model |
| `FallbackWalk.PlayConcat` | internal/gateway/fallback.go:193-318 | playing two candidate lists in a row is playing one, then the other with the attempts left |
| `FallbackServe.ExhaustionError` | internal/gateway/fallback.go:367-397 | maps the observed classes to one error, in whatever order they are read; `FallbackServe.ExhaustionTable` says which |
| `FallbackServe.ExhaustionTable` | internal/gateway/fallback.go:367-397 | the status, error code and Retry-After of every set of observed classes |
| `FallbackServe.EligibleExactly` | internal/gateway/fallback.go:324-361 | eligibility in the words of the documentation: allowed namespace, offered model, a type that speaks the caller's format or a request that translates |
| `FallbackServe.TurnExactly` | internal/gateway/fallback.go:215-283 | for every gate and answer: which answers end the walk, who is refused, who holds a slot, and how each failure is filed |
| `FallbackServe.RetryIsLongest` | internal/gateway/fallback.go:236-252 | the Retry-After of an exhausted walk is the longest any refused candidate asked for, one second for a throttled one |
| `FallbackServe.Serve` | internal/gateway/proxy.go:229-261 | relays the winner with its slot, or reports the exhaustion, of the request's played candidates |
| `FallbackServe.AttemptsAreTheCut` | internal/gateway/fallback.go:193-318 | the upstream attempts are the preorder cut at the cap, less the refused candidates, up to the first answer that ends the walk |
| `FallbackServe.WinnerIsLast` | internal/gateway/fallback.go:264-273 | the winner is the last attempt, if its answer ends the walk |
| `FallbackServe.SubtreeIsFresh` | internal/gateway/fallback.go:197-211 | the preorder reaches eligible, so far unvisited providers, each once |
| `FallbackServe.AttemptDiscipline` | internal/gateway/fallback.go:193-318 | on any graph: only eligible, unrefused candidates are tried, none twice, at most the cap, and nothing after an ending answer |
| `FallbackServe.SlotLinearity` | internal/gateway/fallback.go:215-290 | no other candidate's slot is in hand during an attempt; a win leaves the winner's slot only; an exhausted walk leaves none, except the primary's own exactly when the primary was not tried |
| `FallbackServe.ObservedIsCharged` | internal/gateway/proxy.go:246-248 | an exhausted walk observed exactly the failures of the charged candidates |
| `FallbackServe.ExhaustionReport` | internal/gateway/fallback.go:367-397 | 502 with the provider error in general; 503 exactly when the primary was tried and every charged candidate failed to connect, 504 likewise for timeouts, and never a budget error |
| `FallbackValidator.ValidateFallback` | internal/controller/modelprovider_controller.go:217-286 | terminates, and reports, as a set, exactly what is wrong along a tree spanning the providers the primary reaches: every edge to a provider already reached, every missing provider, every fault of a taken edge; nothing if and only if every provider reachable over readable ones has one path and every edge on the way is well declared |
| `FallbackValidator.JudgeEdge` | internal/controller/modelprovider_controller.go:246-262 | reports a problem if and only if it is one of the edge: an incompatible format, a mapped key that is no model of the parent, a mapped value that is none of the child |
| `FallbackValidator.ModelSet` | internal/controller/modelprovider_controller.go:288-294 | the set of a provider's model ids |
| `FallbackValidator.TakenSpans` | internal/controller/modelprovider_controller.go:231-276 | a search that has emptied its queue took one path to each name it met and popped every edge out of those paths |
| `FallbackValidator.WrongIsUnclean` | internal/controller/modelprovider_controller.go:234-262 | whatever is wrong along a spanning tree is a second path to a name or a badly declared edge |
| `FallbackValidator.AbsentReported` | internal/controller/modelprovider_controller.go:240-244 | a missing provider at the end of any path is reported, whichever tree was taken, where the primary is stored as it was given |
| `FallbackValidator.AllTaken` | internal/controller/modelprovider_controller.go:231-276 | where no edge closes a second path, the tree holds every path |
| `FallbackSound.CandidateHasOnePath` | internal/gateway/fallback.go:292-318 | on a validated chain every candidate is the end of one path of eligible providers and is asked for the composition of that path's model maps |
| `FallbackSound.EligiblePathIsCandidate` | internal/gateway/fallback.go:193-318 | conversely, where no provider has two paths the walk can take, every path of eligible providers ends at a candidate |
| `FallbackSound.ValidatedHasOneLivePath` | internal/controller/modelprovider_controller.go:217-286 | a validated chain is such a one |
| `FallbackSound.FormatsAgree` | internal/gateway/fallback.go:324-332 | every provider on a validated chain is format-compatible with the primary |
| `FallbackSound.ReadPaths` | internal/controller/modelprovider_controller.go:239-245 | with failing reads the validator follows exactly the paths that do not pass an unread provider, with the same links |
| `FallbackSound.PartlyReadCandidate` | internal/controller/modelprovider_controller.go:239-245 | after a validation with failing reads, a candidate was reached through an unread provider or along the one path to it the validator knows |
| `FallbackSound.PartlyReadHasOneLivePath` | internal/controller/modelprovider_controller.go:239-245 | if no eligible path ends at an unread provider, no provider has two paths the walk can take |
| `FallbackSound.FailedReadHidesCycle` | internal/controller/modelprovider_controller.go:239-245 | a loop of two providers passes validation while the second cannot be read, and fails it otherwise |
| `Mailbox.ParseCompletion` | internal/controller/agenttask_desired.go:371-383 | the controller's decoder computes what the mailbox says |
| `Mailbox.ParseCompletionData` | internal/gateway/completion.go:184-199 | so does the gateway's, on every map: the two agree |
| `Mailbox.ValidateArtifacts` | internal/gateway/completion.go:54-72 | accepts exactly when nothing is undeclared and, on success, everything declared is present |
| `Mailbox.WithinCaps` | internal/gateway/completion.go:148-164 | each value within 4 KiB and message plus values within 32 KiB, in bytes of their UTF-8 encoding |
| `Mailbox.Utf8IsShortest` | internal/gateway/completion.go:148-164 | a character counts as the fewest bytes whose payload bits hold it, section 3 of RFC 3629, and lengths add up |
| `Mailbox.AcceptableIff` | internal/gateway/completion.go:136-164 | a success is acceptable only with exactly the declared artifacts, a failure with a subset of them, and nothing else is |
| `Mailbox.CheckCompletion` | internal/gateway/completion.go:136-172 | accepts exactly the acceptable bodies, and the patch it writes decodes back to the body |
| `Mailbox.Encode` | internal/gateway/completion.go:166-172 | the written data has only the body's keys and decodes to the body |
| `Mailbox.MergeDecoded` | internal/gateway/async.go:146-154 | after a merge patch (section 2 of RFC 7396) the mailbox says the new status, the new message unless empty, and the union of the artifacts |
| `Mailbox.MailboxSound` | internal/controller/agenttask_controller.go:337-342 | any sequence of accepted completions from an empty mailbox decodes to the last status, the last nonempty message, and artifacts the controller's validator accepts |
| `Task.MoveLowersFuel` | internal/controller/agenttask_controller.go:171-495 | every committed change of stage strictly lowers (retries left, phase rank) |
| `Task.BoundedChanges` | internal/controller/agenttask_controller.go:171-495 | a run changes stage no more often than the measure it started with |
| `Task.RunBound` | internal/controller/agenttask_controller.go:388-451 | retries never exceed a non-negative limit, and a fresh task changes stage at most 8 times the limit plus 7 times |
| `Task.SettledSticks` | internal/controller/agenttask_controller.go:101-104 | a settled outcome keeps its completion time and retries, and its phase changes only to Terminating |
| `TaskPass.CompletingSettles` | internal/controller/agenttask_controller.go:329-395 | a pass over a Completing task with a write to spend settles it: the payload or the exit decides if there is one, then the clock, and without either it failed |
| `TaskPass.RunningCompletes` | internal/controller/agenttask_controller.go:282-324 | a Running task whose end is due stores Completing and then what a later pass over the same reads would |
| `TaskPass.UnreadWaits` | internal/controller/agenttask_controller.go:282-300 | a Running agent-reported task whose mailbox cannot be read is left alone |
| `TaskPass.PodCreated` | internal/controller/agenttask_controller.go:106-224 | a pass creates a Pod if and only if the task has not started, every check is passed, none was seen, and its writes reach; one write more stores its identity |
| `TaskPass.PodObserved` | internal/controller/agenttask_controller.go:235-277 | an observed Pod is named first, and then a ready one starts the task, a success completes it, a failure or the deadline fails it, and anything else waits |
| `TaskPass.RetryRuns` | internal/controller/agenttask_controller.go:388-451 | whatever a pass stores, a retry runs as counter, reset, Provisioning, and nothing else deletes a Pod |
| `TaskPass.FinishedExpires` | internal/controller/agenttask_controller.go:477-495 | a finished task is deleted exactly once its time to live has run out |
| `TaskPass.InterruptedResumes` | internal/controller/agenttask_controller.go:67-104 | a pass resumes an interrupted retry and does nothing else; a task being deleted or not yet guarded is left alone |
| `TaskPass.GatesHold` | internal/controller/agenttask_controller.go:106-161 | a missing prerequisite stores at most Pending, a missing certificate at most Provisioning, a violation ends the task whatever the retries, a failed read ends the pass |
| `TaskReconciler.TaskServer.HandleTaskComplete` | internal/gateway/completion.go:91-180 | accepts exactly when the task is agent-reported and not finished, the caller is its current Pod and the body acceptable, and answers each refusal with its own status code; on refusal the mailbox is untouched |
| `TaskReconciler.TaskServer.Hear` | internal/gateway/completion.go:91-180 | after a batch of calls the mailbox says what the accepted ones say one after the other: the last status, the last nonempty message, the union of the artifacts |
| `TaskReconciler.TaskServer.Interfere` | internal/gateway/completion.go:104-128 | no batch of calls changes the mailbox while the gate is shut: a finished phase, or a cleared Pod UID |
| `TaskReconciler.TaskServer.ClearAway` | internal/controller/agenttask_controller.go:419-446 | goes through exactly when its reads and writes do, and then leaves an empty mailbox; otherwise leaves it as it was |
| `TaskReconciler.TaskServer.Retry` | internal/controller/agenttask_controller.go:402-451 | commits Failed with the counter raised and the UID cleared, then Provisioning, stopping at the first failed write; no completion lands meanwhile, so Provisioning is re-entered with an empty mailbox |
| `TaskReconciler.TaskServer.RetryAndResume` | internal/controller/agenttask_controller.go:90-99 | when a crash cuts the retry short, the resumed task finds an empty mailbox exactly when the reset was reached or nothing was in it |
| `TaskReconciler.TaskServer.FailOrRetry` | internal/controller/agenttask_controller.go:388-395 | a failure is terminal exactly when the retries are used up |
| `TaskReconciler.TaskServer.SettleTimeout` | internal/controller/agenttask_controller.go:377-384 | a timeout settles TimedOut or, if so configured, Succeeded, whatever the retries |
| `TaskReconciler.TaskServer.SettleReported` | internal/controller/agenttask_controller.go:339-361 | an agent-reported task is settled on the payload read, else on the clock, whatever completion calls land between its writes |
| `TaskReconciler.TaskServer.SettleExited` | internal/controller/agenttask_controller.go:363-373 | an exit-code task is settled on the container's exit, else on the clock |
| `TaskReconciler.TaskServer.DriveCompleting` | internal/controller/agenttask_controller.go:329-373 | settles on the payload first, then the exit, then the clock; with a sound mailbox a reported success is never turned away as drift |
| `TaskReconciler.TaskServer.DriveRunning` | internal/controller/agenttask_controller.go:282-324 | completes on a payload, an exit or the clock before it fails a lost Pod, and otherwise stores nothing |
| `TaskReconciler.TaskServer.WatchRunning` | internal/controller/agenttask_controller.go:302-324 | a Running task without a payload completes on an exit or the clock, fails on a lost Pod, and does exactly that |
| `TaskReconciler.TaskServer.DriveProvisioning` | internal/controller/agenttask_controller.go:188-278 | stamps an observed Pod before anything else, and creates one only where none was seen and the certificate is ready |
| `TaskReconciler.TaskServer.EnsureChildren` | internal/controller/agenttask_controller.go:546-582 | the mailbox is created empty and only if there is none, and is there for an agent-reported task once the pass gets past |
| `TaskReconciler.TaskServer.CreatePod` | internal/controller/agenttask_controller.go:192-224 | creates a Pod exactly when nothing was seen and its writes reach, one at most, with the mailbox there before it, and stores its identity with one write more |
| `TaskReconciler.TaskServer.MakePod` | internal/controller/agenttask_controller.go:192-224 | the same past the certificate check |
| `TaskReconciler.TaskServer.DriveObserved` | internal/controller/agenttask_controller.go:235-277 | a ready Pod starts the task, an exit-code success completes it, an early exit, a fatal error or the deadline fails it |
| `TaskReconciler.TaskServer.Complete` | internal/controller/agenttask_controller.go:290-313 | stores Completing, then what the mailbox, the Pod and the clock decide |
| `TaskReconciler.TaskServer.Advance` | internal/controller/agenttask_controller.go:106-161 | a missing prerequisite only waits, a violation before the Pod is final, and no Pod is created past either |
| `TaskReconciler.TaskServer.PassGates` | internal/controller/agenttask_controller.go:106-161 | lets a task through exactly when no prerequisite is missing, none is violated and no read fails; what it stores otherwise is exact |
| `TaskReconciler.TaskServer.Drive` | internal/controller/agenttask_controller.go:163-186 | each phase is driven as its function in `TaskPass` says, and a Completing task with a write to spend ends up decided |
| `TaskReconciler.TaskServer.HandleTTL` | internal/controller/agenttask_controller.go:477-495 | stores Terminating exactly when the time to live has run out |
| `TaskReconciler.TaskServer.Reconcile` | internal/controller/agenttask_controller.go:67-168 | a pass no call interferes with does exactly what `TaskPass.Reconciled` says, statuses stored, mailbox, Pods created and deleted alike; any pass, whatever it reads and wherever it is cut off, extends the history by moves with evidence (a completion had a payload, an exit or the clock; a failure a broken, lost or exited Pod, the deadline, a failing verdict, or a violation before there was a Pod), settles a Completing task it has a write for, settles a running task's reported success whatever became of its Pod, creates a Pod only past every check, and leaves an empty mailbox empty while no stored status names a Pod |
| `TaskReconciler.TaskServer.Run` | internal/controller/agenttask_controller.go:67-168 | over any number of passes with completion calls in between the history stays a chain of moves each justified by what its pass saw, the mailbox stays one the validator accepts, and an empty mailbox stays empty as long as no stored status names a Pod; a run without calls does exactly what its passes do one after the other |
| `Agent.ActivityNeverDecreases` | internal/controller/agent_controller.go:224-390 | the stored LastActivityTime never goes back, second truncation included |
| `Agent.WakeGrace` | internal/controller/agent_controller.go:224-390 | after a wake at w the agent goes Idle only after floor(w) plus the idle timeout and Hibernating only after the delay on top |
| `Agent.EntryPhaseRestored` | internal/controller/agent_controller.go:449-470 | however long it is Degraded, an agent leaves to the phase it was entered from, or to Terminating |
| `Agent.WakeStaysVisible` | internal/controller/agent_controller.go:224-261 | a wake written on a Hibernated agent is there until Resuming or Terminating is committed |
| `AgentActivity.MergedActivity` | internal/controller/agent_activity.go:208-233 | the latest of all records the activity source counts, across replicas, and none exactly when there is none |
| `AgentActivity.MergedIsLatest` | internal/controller/agent_activity.go:208-233 | the fold over replicas and sources finds the latest record of all that count |
| `AgentActivity.RecordsCounted` | internal/controller/agent_activity.go:208-233 | traffic counts unless only heartbeats do, heartbeats unless only traffic does, of the named agent, in any replica that answered |
| `AgentActivity.EvaluateActivity` | internal/controller/agent_controller.go:293-390 | the whole judged status, as the next three rows describe it |
| `AgentActivity.EvaluatedIsJudged` | internal/controller/agent_controller.go:293-390 | Running goes Idle exactly after a judged silence, Idle returns only on a record newer in whole seconds, and hibernates exactly after the delay from a marker transitions do not move |
| `AgentActivity.RunningIdles` | internal/controller/agent_controller.go:310-352 | a Running agent that can be judged goes Idle exactly after the idle timeout since the last sign of activity, which becomes its marker |
| `AgentActivity.IdleReturnsOrSleeps` | internal/controller/agent_controller.go:353-390 | an Idle one returns on a record of a later second, and else hibernates exactly after the delay on top |
| `AgentReconciler.OwnedPod` | internal/controller/agent_controller.go:799-817 | the first live Pod, else the last terminating one, and none exactly when there is none |
| `AgentReconciler.MayWake` | internal/controller/agent_controller.go:224-243 | stamping the wake on a Hibernated agent never moves LastActivityTime back |
| `AgentReconciler.MayJudge` | internal/controller/agent_controller.go:293-390 | whatever the gateways return, the judged status is one of the agent's moves |
| `AgentPass.WokenResumes` | internal/controller/agent_controller.go:224-261 | a pass over a woken Hibernated agent stores Resuming with the wake, in whole seconds, as activity, and removes the annotation with a second write; on other phases it only removes the annotation |
| `AgentPass.HibernatingSettles` | internal/controller/agent_controller.go:265-287 | one over a Hibernating agent deletes its Pod, stores Hibernated exactly with none left, and changes nothing where the Pods cannot be read |
| `AgentPass.HibernatedSleeps` | internal/controller/agent_controller.go:95-150 | one over a Hibernated agent changes nothing |
| `AgentPass.DeletedEnds` | internal/controller/agent_controller.go:831-894 | deletion stores Terminating once, then deletes the chosen Pod, and releases the finalizer exactly when the Pods are read and gone, touching no other Pod |
| `AgentPass.GuardedFirst` | internal/controller/agent_controller.go:95-124 | an agent without its finalizer gets that and nothing else |
| `AgentPass.DegradedRemembers` | internal/controller/agent_controller.go:449-470 | a standing reason degrades from any phase and remembers it, and that phase is given back once none stands |
| `AgentPass.PodCreated` | internal/controller/agent_controller.go:720-795 | a Pod is created if and only if a served agent has none, the reads succeed and a write is left, and the agent then provisions |
| `AgentPass.PodConverges` | internal/controller/agent_controller.go:720-817 | a terminal or drifted Pod is deleted, a crash loop fails the agent, and only a ready Pod lets it run |
| `AgentPass.GatesHold` | internal/controller/agent_controller.go:153-196 | a gate or a missing certificate is recorded and touches no Pod |
| `AgentReconciler.AgentServer.HandleWake` | internal/controller/agent_controller.go:224-261 | an undisturbed wake stores Resuming with the wake as activity and removes the annotation, in that order; on other phases only the annotation goes |
| `AgentReconciler.AgentServer.DriveHibernating` | internal/controller/agent_controller.go:265-287 | stores Hibernated exactly once the Pods are gone |
| `AgentReconciler.AgentServer.ReconcileDegraded` | internal/controller/agent_controller.go:449-470 | a standing reason stores Degraded with its entry phase; without one the entry phase is restored in the same write |
| `AgentReconciler.AgentServer.ConvergePod` | internal/controller/agent_controller.go:720-795 | the phase is the one the chosen Pod gives; a ready Pod does not promote an Idle agent; a Pod is created only where there is none |
| `AgentReconciler.AgentServer.ReconcileDelete` | internal/controller/agent_controller.go:831-894 | deletion stores Terminating first and releases the finalizer only without Pods |
| `AgentReconciler.AgentServer.FinishDelete` | internal/controller/agent_controller.go:850-894 | deletes the Pod there is, and releases the finalizer where there is none |
| `AgentReconciler.AgentServer.Advance` | internal/controller/agent_controller.go:153-196 | a gate or a missing certificate holds the agent without a new Pod |
| `AgentReconciler.AgentServer.ServePod` | internal/controller/agent_controller.go:198-213 | Pod and activity outcome are stored in one write |
| `AgentReconciler.AgentServer.JudgeActivity` | internal/controller/agent_controller.go:198-213 | only a phase the activity rules cover is judged, on what was merged, and an unread feed leaves it alone |
| `AgentReconciler.AgentServer.Reconcile` | internal/controller/agent_controller.go:95-217 | a pass nothing interferes with does exactly what `AgentPass.Reconciled` says: a wake on a Hibernated agent is stored and cleared, a Hibernating agent without Pods is Hibernated, a deleted one is finished, a clear pass restores the entry phase; with no newer record Idle does not return to Running; a Pod is created only past every check and never for a hibernated agent; every pass, cut off anywhere, extends the history by moves |
| `AgentReconciler.AgentServer.Run` | internal/controller/agent_controller.go:95-217 | so does any number of passes over any activity data, with deletions, lost Pods and wake patches in between; in every status stored on the way the phase is Degraded if and only if PreDegradedPhase is set, and Hibernated, also underneath Degraded, means no owned Pod; a run without wake patches leaves exactly what its passes leave one after the other |
| `AgentReconciler.AgentServer.FallAsleep` | internal/controller/agent_controller.go:310-389 | any number of passes with no new record take a Running agent to Hibernating, on the recorded and on the synthetic path, once every sign of activity is older than the idle timeout at the last but one and than the delay on top at the last |
| `DedupStore.Store.RecallReply` | agentruntime/store.go:140-148 | returns the cached reply and moves a hit to the recent end |
| `DedupStore.Store.Touch` | agentruntime/store.go:169-177 | moves the first occurrence of an id to the end and nothing else |
| `DedupStore.Store.RememberReply` | agentruntime/store.go:152-165 | stores the reply, evicts from the old end down to the size, and writes the file |
| `DedupStore.LruRefinement` | agentruntime/store.go:140-165 | from any state in agreement, one recovered from a file included, after any run with a fixed size the cache holds exactly the most recently used distinct ids, each once and oldest first, with their latest replies; one recovered larger shrinks with the first reply remembered |
| `DedupStore.Load` | agentruntime/store.go:71-112 | listed ids come first in their order, and list and map agree if and only if the cached ids listed have no repeats |
| `DedupStore.ListedNoRepeats` | agentruntime/store.go:93-98 | a file whose order list has no repeats, or has none, meets that condition |
| `DedupStore.FlushRoundTrip` | agentruntime/store.go:115-134 | a flushed state in agreement is loaded back as it was |

## Left out

- Wire.ParseBudgetPartial: an amount is a numeral with two decimals, the only form the gateways write; `ParseFloat` also reads exponents and further digits, which whole cents cannot hold.
- Float rounding: spend is in whole cents, utilization in reals; the code uses 64-bit floats and prints two decimals.
- The workload twin of the reducer (`internal/controller/modelprovider_agentspend.go`): the same fold over another ConfigMap.
- Pricing a response (`costOf`), and usage entries in provider status.
- Wrap-around of the 64-bit admission token and of 32-bit retry counts: the first is out of reach in practice, the second is bounded by the limit.
- Ladder.CapIffDominated: thresholds up to 100, the range the API validates.
- FleetExact.GuaranteeIff: one period and fixed budget; a fold that counts spend twice is covered by `FleetGuarantee.GuaranteeHolds` alone.
- Fleet.FleetOvershootBound: one period and fixed budget; missing peer spend is a bound here and derived from publishes and folds in `Propagation.PropagatedOvershootBound`, and unslotted requests in flight are a bound in both.
- Propagation.PropagatedOvershootBound: no process restarts under a name used before in the period, and no wall-clock time is put on a publish or a fold.
- Exchange.NoUnderCount: one period on a shared clock, and a Pod name is reused only after its key was pruned.
- LedgerView.PeersAreLastFold: a clock that does not run backwards.
- LedgerMark.MarkIff: a clock that does not run backwards; a settle counts as covered by the time of the publish's snapshot, which is read just before the counters.
- FallbackValidator.AbsentReported: the primary is readable as it was given or not at all; an edge back to a primary that was since changed is reported and not followed.
- Periods.KeyReads: years 0 to 9999, which the four-digit format holds.
- LedgerRuns.SerializedAdmission: a clock that does not run backwards; `LedgerRuns.SlotDiscipline` needs no such clock.
- Translation of requests between formats, and namespace globs: whether a request translates, and which providers allow its namespace, is arbitrary.
- Upstream answers depend on provider and model only, which loses nothing because no provider is tried twice in a walk.
- The validator's warning about missing output limits, and its message texts.
- The informer cache: passes and the gateway read the latest stored object.
- A terminating task Pod stamped again by the next provisioning pass: the gate theorems reach to the next stored status that names a Pod.
- The task and agent specs are fixed during a run, except that an agent's lifecycle settings may differ from pass to pass.
- One clock reading per pass.
- TaskReconciler.TaskServer.EnsureChildren: the account, volume and network policy are one write before the mailbox, its role and binding one write after it.
- Certificates, Services, volumes, network policies, conditions, events, metrics, tracing, and the HTTP and TLS layers.
- The key-value half of the agent runtime's store.
- Channels, callbacks, the MCP broker, the console and the API types.
