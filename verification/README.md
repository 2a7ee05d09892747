# Energy planner: verified model

A Dafny model of the decision logic of a Home Assistant energy planner, with proofs of what that logic is relied on
for. It stands alone and is verified with
`dafny verify dfyconfig.toml`.

The model has four parts.

**Money and the climate search.** `SiteEnergy` is the step loop that values a forecast grid with a lossy, power-
limited battery and a two-sided tariff, and `SiteLaws` what a valuation promises, told by the site's own fields.
`ConservativeBound` and `TariffSigns` are about the lower bound on savings
that four such runs are turned into, `SlotSplit`, `SlotConverse` and `SlotCollapse` about cutting slots at an
incumbent's boundaries, when that can be refused, and rejoining them, `CandidateSchedules` about the bounded search,
`PlanningGrid` about the grid of planning starts, and `Vectors`, `Ridge` and `Elimination` about the regression that
fits thermal coefficients.

**Durable device transactions.** `ExportLimit` and `EnphaseProfile` are classes with an in-memory store, a separate
disk copy and an adversarial environment: saves may be delayed, fail or be cut short by a crash, calls may be
refused, time out, be cancelled or end the process, the gateway shows what it likes, other writers intervene and the
clock may jump. A ghost history records what crossed the device boundary - every reading that was shown, every command,
every refusal - and how ownership came and went. Nothing is taken over, reported, resolved or given up except on what
is recorded there. `ExportLog` and `EnphaseLog` hold the histories' theorems. `ExportSteps` and `EnphaseSteps` are the
two transactions as functions of the stored state and of the environment's answers, which the methods are proved to
compute; `ExportState`, `ExportTiming`, `ExportKeeps` and `ExportDispatch` prove that they keep store and history
together. `ExportRuns`, `ExportTraces`, `ExportExact` and `EnphaseRuns` are about all their runs, `ExportActs` and `EnphaseActs`
about what the transactions positively do: what is sent, when, and what is compensated.

**The coordinator.** `Coordinator` is the single-threaded protocol of refresh generation, newest-plan queue and
export-reconciliation gate, one method per atomic step between two suspension points, with every interleaving
of refresh, drain, background reconciliation, operator work and shutdown.

**Histories and budgets.** `CalendarHistory`, `Readiness`, `ActionLimits` and `ResponseLimits`.

Conventions: instants are whole microseconds, decimal numbers are reals, `oneWay` is the square root of the round-trip
efficiency (`oneWay * oneWay == roundTrip`), and exceptions are `Outcome` values. The battery parameters, the settled
readback of the gateway, the simulated trajectories and the clock are inputs.

Five findings about the code, each stated and proved in the model:

- The conservative saving bound is documented as allowing for negative prices. It does for a series that is negative
  throughout; for a series that mixes signs it is not a bound. `TariffSigns.SoundExactlyForOneSign` gives the exact
  condition.
- Cutting slots at an incumbent's boundaries keeps the money whenever the cut grid is accepted
  (`SlotSplit.SubdivisionKeepsValue`), but an accepted grid can be refused once it is cut
  (`SlotConverse.CuttingCanBeRefused`): the average over a slot hides a last part, with the battery full or empty, that
  breaks a grid limit. `SlotConverse.LastPartDecides` gives the exact condition.
- The recorded Enphase profile is the one that the first command of an ownership period replaced, except when dispatch
  was prevented after recording: the record stays behind, and a later command is sent under it whatever is selected by
  then (`EnphaseRuns.InterruptedTakeoverKeepsOlderProfile`). `EnphaseRuns.TakeoverExactly` and
  `EnphaseRuns.MisledExactly` give the exact conditions.
- The export-limit baseline is the setting that the command of its own takeover replaced
  (`ExportLog.BaselineIsFirstSeen`). If that command is never sent, because the process ends or a save fails after the
  reservation, the request and the baseline stay on record: another writer's identical setting is then reported as
  applied, and a later change is sent under a baseline that it does not replace
  (`ExportExact.UnsentChangeIsApplied`). `ExportExact.UnsentAppliedExactly` and `ExportExact.MisledExactly` give the
  exact conditions.
- A cancelled drain can leave a newer plan queued with nobody to run it (`Coordinator.CancellationStrandsPlan`); while
  a plan is queued the drain is dead exactly if it was cancelled (`Coordinator.Run`).

## Model

| member | source | states |
|---|---|---|
| SiteEnergy.Evaluate | custom_components/ha_energy_planner/climate_economics.py:16-75 | the step loop with all its early returns computes exactly the function the lemmas below are about, for any grid, prices, powers and battery |
| SiteEnergy.UseBattery | custom_components/ha_energy_planner/climate_economics.py:56-66 | one slot's charge or discharge branch, against the flow function |
| SiteEnergy.Value | custom_components/ha_energy_planner/climate_economics.py:67-74 | grid-limit rejection and the five running totals of one slot |
| SiteEnergy.ChargeBounds | custom_components/ha_energy_planner/climate_economics.py:57-62 | charging is never negative, never exceeds the surplus, and never puts more into the battery than there is room for |
| SiteEnergy.DischargeBounds | custom_components/ha_energy_planner/climate_economics.py:63-66 | discharging is never negative, never exceeds the demand, and never takes more than the energy above the reserve |
| SiteEnergy.FlowBounds | custom_components/ha_energy_planner/climate_economics.py:56-66 | one slot keeps the battery in its band, never flips the sign of net demand, and changes stored energy by exactly the efficiency-weighted exchange |
| SiteEnergy.RunConserves | custom_components/ha_energy_planner/climate_economics.py:35-74 | over any accepted run import minus export equals demand plus charge minus discharge, and terminal energy is the start plus eff*charge less discharge/eff |
| SiteEnergy.ValuationConserves | custom_components/ha_energy_planner/climate_economics.py:31-75 | started anywhere in [0, capacity], after every slot of an accepted valuation stored energy is in [min(start, reserve), capacity] and both balances hold |
| SiteLaws.ValuedExactly | custom_components/ha_energy_planner/climate_economics.py:16-75 | a result is returned if and only if the site is eligible and its slots can be settled one after the other, each demand (load, vehicle and intervention less sun, with the lower sun and upper load in a conservative run) through battery and meter within the grid limits; and it is the last state |
| SiteLaws.ChargesExactly | custom_components/ha_energy_planner/climate_economics.py:57-62 | a charge is the one amount that takes all that surplus, rate and room allow and no more |
| SiteLaws.DischargesExactly | custom_components/ha_energy_planner/climate_economics.py:63-66 | a discharge is the one amount that gives all that demand, rate and reserve allow and no more |
| SiteLaws.BackupHolds | custom_components/ha_energy_planner/climate_economics.py:63-66 | under the full-backup profile stored energy never falls over any accepted valuation |
| SiteLaws.SelfConsumptionSupplies | custom_components/ha_energy_planner/climate_economics.py:63-66 | under the self-consumption profile a slot with demand, with energy above the reserve and with a discharge rate draws strictly less than its demand and empties the battery by that much |
| ConservativeBound.Compare | custom_components/ha_energy_planner/climate_optimizer.py:732-759 | the comparison of four valuations: absent as soon as one is, else the least baseline cost less the greatest candidate cost, and the battery check |
| ConservativeBound.ChargeForm | custom_components/ha_energy_planner/climate_economics.py:57-62 | a charged slot as a race between surplus, rate and room, the form in which it is monotone |
| ConservativeBound.DischargeForm | custom_components/ha_energy_planner/climate_economics.py:63-66 | a discharged slot as a race between demand, rate and reserve |
| ConservativeBound.FlowMonotone | custom_components/ha_energy_planner/climate_economics.py:56-66 | more demand on an emptier battery leaves it no fuller and draws no less, through every charge, discharge, reserve and capacity case |
| ConservativeBound.MoneyMonotone | custom_components/ha_energy_planner/climate_economics.py:74 | money is monotone in net energy when both prices share a sign, upwards or downwards |
| ConservativeBound.RunBetween | custom_components/ha_energy_planner/climate_economics.py:35-74 | of three runs with ordered demands, the middle one is accepted when the outer two are, and its battery and (for prices of one sign) its cost lie between theirs |
| ConservativeBound.ValuationBetween | custom_components/ha_energy_planner/climate_economics.py:16-75 | feasibility is closed between brackets: any power vector between two valued ones is itself valued, with terminal battery and one-signed cost between theirs |
| ConservativeBound.BoundIsFeasible | custom_components/ha_energy_planner/climate_optimizer.py:732-759 | any household and intervention inside the brackets are valued, and when the battery check passed the intervention ends with at least the household's charge; no assumption on prices |
| ConservativeBound.BoundHoldsForOneSign | custom_components/ha_energy_planner/climate_optimizer.py:732-759 | when all prices are at least zero, or all at most zero, every household and intervention inside the brackets save at least the claimed amount |
| ConservativeBound.BracketsExactly | custom_components/ha_energy_planner/climate_optimizer.py:684-687 | for non-negative powers and error the baseline brackets hold exactly the vectors that lie within the relative error, slot by slot; beyond 100% the lower one is zero |
| ConservativeBound.BatteryKeptExactly | custom_components/ha_energy_planner/climate_optimizer.py:757-759 | the battery check holds if and only if every household and every intervention inside the brackets satisfy: the intervention ends with at least the household's charge less 0.01 kWh |
| ConservativeBound.SavingIsAttained | custom_components/ha_energy_planner/climate_optimizer.py:739-756 | the claimed saving is that of two of the four valued runs, so that no larger bound would hold |
| TariffSigns.SoundExactlyForOneSign | custom_components/ha_energy_planner/climate_optimizer.py:739-759 | the exact condition on a price series for the saving bound to hold at every site: no two prices of opposite sign. The docstring's claim that negative prices are allowed for does not hold for mixed signs |
| TariffSigns.MixedSlotsFail | custom_components/ha_energy_planner/climate_optimizer.py:739-759 | a positive and a negative price in different slots always admit a site and a household whose saving falls short of the claim |
| TariffSigns.ValleyFails | custom_components/ha_energy_planner/climate_optimizer.py:739-759 | so does one slot that charges for buying and for selling |
| TariffSigns.RidgeFails | custom_components/ha_energy_planner/climate_optimizer.py:739-759 | and one slot that pays for buying and for selling |
| SlotSplit.SplitAtBoundaries | custom_components/ha_energy_planner/climate_optimizer.py:585-597 | the split loop cuts every slot exactly at those of start, stop and release that lie strictly inside it, and copies everything else |
| SlotSplit.SplitIsAtBoundaries | custom_components/ha_energy_planner/climate_optimizer.py:585-597 | told by the parts alone: they follow one another without a gap from a slot's start to its end, each boundary strictly inside starts a part and ends another, and nothing else is cut |
| SlotSplit.CutSlot | custom_components/ha_energy_planner/climate_optimizer.py:585-597 | the parts of one slot run from point to point and end at the slot's end |
| SlotSplit.BoundariesAreValid | custom_components/ha_energy_planner/climate_optimizer.py:585-597 | the incumbent's boundaries cut every slot of positive length into increasing parts, at least one each |
| SlotSplit.FlowJoins | custom_components/ha_energy_planner/climate_economics.py:56-66 | cutting one slot at any instant leaves the same battery and the same net energy, also when the battery fills or hits its reserve in between |
| SlotSplit.AdvanceJoins | custom_components/ha_energy_planner/climate_economics.py:35-74 | if both halves of a slot are accepted, the whole slot is, with exactly their combined cost, import, export, HVAC energy and battery |
| SlotSplit.FoldGroup | custom_components/ha_energy_planner/climate_economics.py:35-74 | the same for any number of parts |
| SlotSplit.SubdivisionKeepsValue | custom_components/ha_energy_planner/climate_optimizer.py:585-597 | cutting any slots of a well-timed grid at any interior instants does not change the money: if the cut grid is accepted the original is, with an identical result |
| SlotConverse.RateMovesOneWay | custom_components/ha_energy_planner/climate_economics.py:56-73 | under one load the grid rate moves in one direction only: a filling battery exports more and more, an emptying one imports more and more |
| SlotConverse.SlotCuts | custom_components/ha_energy_planner/climate_economics.py:56-73 | one slot can be cut into given parts exactly when its first and its last part keep the grid limits |
| SlotConverse.CutAcceptedExactly | custom_components/ha_energy_planner/climate_optimizer.py:585-597 | the converse of subdivision, exactly: an accepted grid cut at interior instants is accepted if and only if in every slot the first and the last part keep the grid limits |
| SlotConverse.LastPartDecides | custom_components/ha_energy_planner/config_flow.py:647-652 | under the non-negative limits that the configuration admits, if and only if the last part of every slot does |
| SlotConverse.CuttingCanBeRefused | custom_components/ha_energy_planner/climate_economics.py:56-73 | the condition is needed: a battery that fills in the first half hides a second half above the export limit, so that the whole slot is accepted and the halves are not |
| SlotCollapse.AcceptedSplitIsOrdered | custom_components/ha_energy_planner/climate_optimizer.py:585-602 | a split that was valued has found an ordered grid, whatever the original grid was |
| SlotCollapse.PartInWindow | custom_components/ha_energy_planner/climate_optimizer.py:702-729 | a part starts inside a slot's time window exactly when it is one of that slot's parts, so searching by time finds the right group |
| SlotCollapse.PartsByTime | custom_components/ha_energy_planner/climate_optimizer.py:702-729 | the search returns all parts of a slot, at least one, in order |
| SlotCollapse.Collapse | custom_components/ha_energy_planner/climate_optimizer.py:702-729 | every published slot carries the energy of its parts and the state at its own end, and total energy is unchanged |
| SlotCollapse.EnergyConserved | custom_components/ha_energy_planner/climate_optimizer.py:702-729 | power times duration summed over any prefix of slots is equal before and after collapsing |
| Elimination.BuildSystem | custom_components/ha_energy_planner/climate_learning.py:185-189 | the loops build the regularised normal system with its right-hand side |
| Elimination.FindPivot | custom_components/ha_energy_planner/climate_learning.py:191 | the pivot row holds the largest magnitude of the column at or below the diagonal |
| Elimination.SwapKeepsKernel | custom_components/ha_energy_planner/climate_learning.py:192 | a pivot swap keeps the solutions of the system |
| Elimination.DivideKeepsKernel | custom_components/ha_energy_planner/climate_learning.py:193-196 | dividing a row by its nonzero pivot keeps them |
| Elimination.ClearKeepsKernel | custom_components/ha_energy_planner/climate_learning.py:197-200 | subtracting a multiple of the pivot row keeps them |
| Elimination.PivotExists | custom_components/ha_energy_planner/climate_learning.py:191-195 | in exact arithmetic no column of the reduced system can be without a nonzero pivot |
| Elimination.PivotIsLarge | custom_components/ha_energy_planner/climate_learning.py:191-195 | in exact arithmetic the largest candidate of every column is at least 0.02 over the number of columns reached and one |
| Elimination.StepKeepsLinked | custom_components/ha_energy_planner/climate_learning.py:193-200 | where the rows reduced so far vanish, every original row vanishes or has the value of a row still to come |
| Elimination.ReduceColumn | custom_components/ha_energy_planner/climate_learning.py:190-200 | one column's pass keeps the solutions and reduces the column; it stops only below the threshold, and then the width is beyond twenty thousand million |
| Elimination.ReducedSolution | custom_components/ha_energy_planner/climate_learning.py:201 | a fully reduced system is solved by its last column and by nothing else |
| Elimination.Solve | custom_components/ha_energy_planner/climate_learning.py:180-202 | whenever coefficients are returned they are the unique solution of (X'X + 0.01 I) c = X'y, for any width, sample count and pivoting; well-formed data of any realistic width is never declined |
| Ridge.KernelIsSolution | custom_components/ha_energy_planner/climate_learning.py:185-189 | the null vectors of the augmented matrix are exactly the solutions of the normal equations |
| Ridge.LossExcess | custom_components/ha_energy_planner/climate_learning.py:180-202 | the regularised loss of any coefficients exceeds that of a solution by a sum of squares |
| Ridge.SolutionMinimises | custom_components/ha_energy_planner/climate_learning.py:180-202 | a solution minimises the regularised squared error, and is the only minimiser |
| Ridge.NormalIsDefinite | custom_components/ha_energy_planner/climate_learning.py:185-189 | the regularised normal matrix is positive definite: only the zero vector is mapped to zero |
| PlanningGrid.PlanningStarts | custom_components/ha_energy_planner/planning_grid.py:11-28 | for a positive interval the result is exactly, in increasing order, the present, the native boundaries ahead and the lattice anchored at the first of them |
| PlanningGrid.Offsets | custom_components/ha_energy_planner/planning_grid.py:21-22 | without tariffs: every interval from the present on, before the end |
| PlanningGrid.AddLattice | custom_components/ha_energy_planner/planning_grid.py:23-27 | the loop adds exactly the lattice points strictly between the present and the end |
| PlanningGrid.GridStep | custom_components/ha_energy_planner/planning_grid.py:11-28 | each start is followed, within one interval, by the next start or the end |
| PlanningGrid.WantedGridIsDense | custom_components/ha_energy_planner/planning_grid.py:11-28 | the grid starts now, never leaves a gap longer than one interval and contains every native boundary inside the horizon |
| PlanningGrid.GridPassesTimingGuard | custom_components/ha_energy_planner/climate_economics.py:36-41 | a contiguous grid built from these starts always passes the valuation's duration and contiguity guard |
| CandidateSchedules.CandidateSchedules | custom_components/ha_energy_planner/climate_optimizer.py:762-784 | the nested loops compute the specified search |
| CandidateSchedules.RoundIsNearest | custom_components/ha_energy_planner/climate_optimizer.py:781 | the sampling index is a nearest integer to the even spacing |
| CandidateSchedules.RoundSeparates | custom_components/ha_energy_planner/climate_optimizer.py:781 | samples more than one apart never round to the same index, ties to even included |
| CandidateSchedules.SampleIsStrict | custom_components/ha_energy_planner/climate_optimizer.py:780-781 | the sample has exactly the selected number of different indices, runs from the first pair to the last, and is everything when the budget allows |
| CandidateSchedules.SampleIsEven | custom_components/ha_energy_planner/climate_optimizer.py:781 | index k of the sample lies within one half of k * (n - 1) / (selected - 1) |
| CandidateSchedules.RoundTies | custom_components/ha_energy_planner/climate_optimizer.py:781 | a tie goes to the even neighbour |
| CandidateSchedules.GroupMember | custom_components/ha_energy_planner/climate_optimizer.py:774-783 | each schedule of a group has its start and target and lies in bounds |
| CandidateSchedules.GroupSize | custom_components/ha_energy_planner/climate_optimizer.py:780-783 | a start and target get as many different schedules as their budget and alternatives allow, at least one |
| CandidateSchedules.GroupCovers | custom_components/ha_energy_planner/climate_optimizer.py:774-783 | with budget for all, every stop and release is tried |
| CandidateSchedules.SearchIsBounded | custom_components/ha_energy_planner/climate_optimizer.py:762-784 | 0 <= start < stop < release < count, stop - start <= lead, targets from the list, and never more schedules than the limit |
| CandidateSchedules.SearchIsRefused | custom_components/ha_energy_planner/climate_optimizer.py:766-772 | the search is refused exactly when there are more starts and targets than schedules allowed |
| CandidateSchedules.SearchCovers | custom_components/ha_energy_planner/climate_optimizer.py:762-784 | every near-term start is tried with every target, with all alternatives when the group's budget allows |
| CandidateSchedules.SearchWorkIsBounded | custom_components/ha_energy_planner/climate_optimizer.py:363-368 | three simulations over all slots of all schedules of all ready modes stay within 500,000 evaluations |
| ResponseLimits.ResponseWithinLimits | custom_components/ha_energy_planner/ai_advisor.py:452-474 | the worklist terminates and answers true exactly when the tree has at most 1024 nodes, keys included, depth at most 8 and at most 32,768 characters |
| ResponseLimits.PushEntries | custom_components/ha_energy_planner/ai_advisor.py:468-470 | the children pushed for a mapping carry exactly its nodes, characters and depth |
| ResponseLimits.PushItems | custom_components/ha_energy_planner/ai_advisor.py:471-473 | the same for a list |
| ResponseLimits.Expanded | custom_components/ha_energy_planner/ai_advisor.py:457-474 | replacing a value by its children keeps what is left to count |
| ResponseLimits.Rejected | custom_components/ha_energy_planner/ai_advisor.py:459-473 | each early rejection is final: the recursive answer is already no |
| ExportLog.AtMostOneUncertain | custom_components/ha_energy_planner/enphase_export_limit.py:302-308 | in any history of the transaction, between two service calls the first one has been resolved, on a reading shown after it or by the refusal of the service |
| ExportLog.ResolutionHasEvidence | custom_components/ha_energy_planner/enphase_export_limit.py:239-276 | whatever resolves a called command is a matching reading shown after the call, one with its watts and another slew rate, or the refusal of the service |
| ExportLog.CallIsRecoverable | custom_components/ha_energy_planner/enphase_export_limit.py:352-363 | at every service call the disk already holds that request, a baseline taken over from the gateway, and the timing reservation |
| ExportLog.CallFollowsReservation | custom_components/ha_energy_planner/enphase_export_limit.py:352-395 | a command is sent on its own reservation, with nothing called, given up or reloaded in between |
| ExportLog.FreshWasShown | custom_components/ha_energy_planner/enphase_export_limit.py:69-80 | a reading that a decision rests on was shown by the gateway, and neither a command nor a crash came between |
| ExportLog.TakeoverWasRead | custom_components/ha_energy_planner/enphase_export_limit.py:308-317 | a takeover records exactly a setting that the gateway showed, with no command and no crash since |
| ExportLog.HeldBaselineWasRead | custom_components/ha_energy_planner/enphase_export_limit.py:316 | whatever baseline is held, also after a crash, was shown by the gateway and recorded by a takeover |
| ExportLog.TakeoverSawBaseline | custom_components/ha_energy_planner/enphase_export_limit.py:308-317 | the command of a takeover replaces exactly the baseline: it saw the setting that is going to be restored |
| ExportLog.BaselineIsFirstSeen | docs/export-limit-timing.md:11 | once the command of a takeover was sent, the baseline is the setting that this command saw, through later commands, deferrals, failures and crashes, until it is dropped |
| ExportLog.BaselineSurvivesCrashes | custom_components/ha_energy_planner/enphase_export_limit.py:352-363 | from any command on, the baseline on disk at that command stays the baseline through any number of crashes, until it is dropped |
| ExportLog.BaselineLeavesWithEvidence | custom_components/ha_energy_planner/enphase_export_limit.py:170-195 | a baseline is dropped only while no command is uncertain, and only on a reading just shown that equals it, on one that differs from what the gateway was last known to show, or when its own takeover was never called |
| ExportLog.ReferenceWasShown | custom_components/ha_energy_planner/enphase_export_limit.py:239-281 | the setting that an external change is measured against, the expected one or the one an overtaken request had seen, was itself shown by the gateway |
| ExportLog.OneCommandPerTicket | custom_components/ha_energy_planner/enphase_export_limit.py:325-351 | whatever is called or reported under one audit identity is one and the same command |
| ExportLog.NoStaleConfirmation | custom_components/ha_energy_planner/enphase_export_limit.py:239-270 | on a steady clock a change that was sent is reported as applied only on a reading shown after the call, matching what was called and completed no earlier than the dispatch |
| ExportLog.ChangesAreSpaced | docs/export-limit-timing.md:3 | on a steady clock two changes of one control are at least five minutes apart, over every run |
| ExportState.CalledKeeps | custom_components/ha_energy_planner/enphase_export_limit.py:364-395 | sending a durably reserved request keeps the invariant of memory, disk and history |
| ExportState.Crashes | docs/export-limit-timing.md:5 | losing memory and continuing from the disk keeps it |
| ExportState.ClockMoves | custom_components/ha_energy_planner/enphase_export_limit.py:204-217 | time moving on, or seen to run backwards, keeps it |
| ExportState.Moves | custom_components/ha_energy_planner/enphase_export_limit.py:116-122 | a justified takeover, resolution or expectation keeps it when memory moves with the history |
| ExportState.RequestAdded | custom_components/ha_energy_planner/enphase_export_limit.py:325-347 | a new reservation on an idle record keeps it |
| ExportState.OwnRewritten | custom_components/ha_energy_planner/enphase_export_limit.py:116-122 | rewriting ownership keeps it, provided a forgotten request is answered for by the timing record |
| ExportState.LimitsRewritten | custom_components/ha_energy_planner/enphase_export_limit.py:135-140 | rewriting one control's timing record keeps it, provided the control stays held back |
| ExportTiming.NextEligible | custom_components/ha_energy_planner/export_limit_cooldown.py:67-74 | the deadline lies at least five minutes after the last attempt, confirmation and external settlement, and keeps the stricter interval captured at dispatch |
| ExportTiming.NormalizationSettles | custom_components/ha_energy_planner/export_limit_cooldown.py:36-64 | repair happens once: the resulting record is believable, later passes only note that they looked, and a believable record keeps its deadline |
| ExportTiming.RepairWaitsBounded | docs/export-limit-timing.md:19 | an unbelievable record, or old ownership without one, starts one wait of at least the change interval and at most a day or the configured interval |
| ExportTiming.NormalizedTimely | custom_components/ha_energy_planner/export_limit_cooldown.py:36-64 | carrying forward, creating or repairing a timing record keeps every promise |
| ExportKeeps.Unlatched | custom_components/ha_energy_planner/enphase_export_limit.py:189-195 | a record with a baseline never carries a latched external conflict |
| ExportKeeps.GivenUpKeeps | custom_components/ha_energy_planner/enphase_export_limit.py:170-195 | giving up to another writer: the request is superseded, its safety wait is on record, the baseline is dropped for the reading just shown, and only an unrelated pause survives |
| ExportKeeps.SettlingKeeps | custom_components/ha_energy_planner/enphase_export_limit.py:252-270 | a match is stamped and reported before the request is forgotten; a restoration ends ownership exactly on the baseline, a change keeps it |
| ExportKeeps.PendingReconciledKeeps | custom_components/ha_energy_planner/enphase_export_limit.py:239-276 | a match confirms the request, or supersedes it when the slew rate was changed by somebody else; without one it stays pending and after ten minutes pauses control |
| ExportKeeps.ReconciledKeeps | custom_components/ha_energy_planner/enphase_export_limit.py:197-283 | never a service call; ownership keeps its baseline and purpose, or ends on what the gateway has just shown; nothing to report means that nothing is pending |
| ExportKeeps.ReadReconciledKeeps | custom_components/ha_energy_planner/enphase_export_limit.py:227-283 | with nothing pending: a settled reading that differs from the expected one, or a latched conflict, is adopted as the new expectation; otherwise the pause on record is the answer and nothing changes |
| ExportKeeps.BlindKeeps | custom_components/ha_energy_planner/enphase_export_limit.py:218-226 | without a usable reading a request of ten minutes ago is reported as unconfirmed, an idle control that became unsupported is paused, and otherwise nothing changes |
| ExportKeeps.WatchingKeeps | custom_components/ha_energy_planner/coordinator.py:1524-1530 | a control without ownership records the settled setting just shown as expected, or that it is unsupported, and otherwise nothing |
| ExportDispatch.ReservingKeeps | custom_components/ha_energy_planner/enphase_export_limit.py:352-363 | on success request, baseline and reservation are on disk; on failure ownership is as before and nothing was sent |
| ExportDispatch.Dispatching | custom_components/ha_energy_planner/enphase_export_limit.py:388-395 | the call is justified with the disk as it is: request, baseline and reservation are on it, and the control's last change is five minutes old |
| ExportDispatch.BackedOutKeeps | custom_components/ha_energy_planner/enphase_export_limit.py:379-387 | an unsent command restores ownership and timing, or gives ownership up when the setting has changed |
| ExportDispatch.FollowedKeeps | custom_components/ha_energy_planner/enphase_export_limit.py:397-427 | a refusal keeps the baseline, forgets the request and pauses; anything else stays pending with an earliest read and is then reconciled; a cancellation propagates |
| ExportDispatch.SendingKeeps | custom_components/ha_energy_planner/enphase_export_limit.py:364-427 | at most one call, only past the last look, reported exactly; an unsent command restores ownership and timing |
| ExportDispatch.ExecutedKeeps | custom_components/ha_energy_planner/enphase_export_limit.py:302-317 | a change is sent only on a control that reconciliation left clear and that is not being restored; at most one call, reported exactly |
| ExportDispatch.GivenBackKeeps | custom_components/ha_energy_planner/enphase_export_limit.py:443-469 | an owned baseline just shown ends ownership; otherwise at most one restoration command, whose outcome is reported |
| ExportDispatch.RestorationKeeps | custom_components/ha_energy_planner/enphase_export_limit.py:429-469 | RESTORED is returned only after the gateway has shown the baseline held at entry |
| ExportActs.UsableExactly | custom_components/ha_energy_planner/enphase_export_limit.py:69-80 | a look is usable exactly when it shows a reading that is not of the future and at most ten minutes old |
| ExportActs.EligibleExactly | custom_components/ha_energy_planner/export_limit_cooldown.py:67-74 | a control may change again exactly when every wait on record is over |
| ExportActs.DispatchSends | custom_components/ha_energy_planner/enphase_export_limit.py:319-427 | when the deadline passed, saves succeed, the last look agrees and the answer reaches the service, exactly one call is added, with the ordered watts and slew rate, and an orderly outcome reports it sent |
| ExportActs.ExecutionSends | custom_components/ha_energy_planner/enphase_export_limit.py:302-317 | a change is sent, once, with the action's watts, from any good state whose reconciliation leaves the control clear, also when ownership and a baseline are already held |
| ExportActs.RestorationSends | custom_components/ha_energy_planner/enphase_export_limit.py:429-469 | a restoration is sent, once, as the baseline with its slew rate, from any good state that holds a baseline, once reconciliation leaves the control clear and both looks show one other setting |
| ExportActs.RestorationEnds | custom_components/ha_energy_planner/enphase_export_limit.py:443-452 | once the gateway shows the baseline on a clear control the restoration is reported and ownership ends |
| ExportActs.IdleRestorationSends | custom_components/ha_energy_planner/enphase_export_limit.py:429-469 | the same from the stored state alone: with a baseline held and nothing pending, a restoration after every wait, in an environment that shows another setting, is sent |
| ExportRuns.RunKeeps | custom_components/ha_energy_planner/enphase_export_limit.py:197-469 | over every sequence of operations and every environment the history stays good, with at most one call an operation |
| ExportRuns.CommandIsNotLost | custom_components/ha_energy_planner/enphase_export_limit.py:352-427 | an uncertain command is, at any later time, pending in memory and on disk or resolved on evidence |
| ExportTraces.RunTraces | custom_components/ha_energy_planner/enphase_export_limit.py:197-469 | over every run a request of before is applied only if it was on record, and a baseline is held or changed under only if it was before or a takeover of the run recorded it |
| ExportExact.MisledExactly | custom_components/ha_energy_planner/enphase_export_limit.py:302-317 | a change under the baseline of a takeover can replace another setting than that baseline if and only if one already did, or nothing was called since and memory or disk still keeps the baseline |
| ExportExact.UnsentAppliedExactly | custom_components/ha_energy_planner/enphase_export_limit.py:239-270 | a change can be reported as applied without ever having been sent if and only if it already was, or its request is on record, in memory or on disk, and was not called |
| ExportExact.UnsentChangeIsApplied | custom_components/ha_energy_planner/enphase_export_limit.py:352-395 | a run from the empty store that gets there: the process ends between reservation and call, another writer sets the same watts, the change is reported as applied, and a later change may then be sent under a baseline that it does not replace |
| ExportLimit.ExportLimitControl.ReadGateway | custom_components/ha_energy_planner/enphase_export_limit.py:69-80 | a usable reading is settled, fresh and recorded as shown; otherwise nothing is recorded |
| ExportLimit.ExportLimitControl.PrepareCooldown | custom_components/ha_energy_planner/enphase_export_limit.py:124-133 | persists the normalised record of the control and changes nothing else |
| ExportLimit.ExportLimitControl.Adopt | custom_components/ha_energy_planner/enphase_export_limit.py:170-195 | an overtaken request is superseded, never confirmed, with its safety wait on record; only an unrelated pause survives |
| ExportLimit.ExportLimitControl.RefreshPending | custom_components/ha_energy_planner/enphase_export_limit.py:204-217 | an unbelievable request time and a missing or future earliest read both move to the present |
| ExportLimit.ExportLimitControl.StampConfirmation | custom_components/ha_energy_planner/enphase_export_limit.py:252-258 | the wait after a confirmation starts at its first observation and is not restarted by later ones |
| ExportLimit.ExportLimitControl.ConfirmPending | custom_components/ha_energy_planner/enphase_export_limit.py:252-270 | a match is stamped and reported before the request is forgotten, and a restoration drops the baseline |
| ExportLimit.ExportLimitControl.Reconcile | custom_components/ha_energy_planner/enphase_export_limit.py:197-283 | every branch of reconciliation, against the function of state and environment; never a service call; ownership is accounted for |
| ExportLimit.ExportLimitControl.Resume | custom_components/ha_energy_planner/enphase_export_limit.py:294-300 | a pause is cleared only when no uncertain command remains; ownership survives only with a baseline |
| ExportLimit.ExportLimitControl.Reserve | custom_components/ha_energy_planner/enphase_export_limit.py:352-363 | on success request, baseline and reservation are on disk; on failure ownership is as before |
| ExportLimit.ExportLimitControl.CheckDispatch | custom_components/ha_energy_planner/enphase_export_limit.py:364-378 | what the last look before the service boundary guarantees when it does not block |
| ExportLimit.ExportLimitControl.BackOut | custom_components/ha_energy_planner/enphase_export_limit.py:379-387 | an unsent command restores the previous ownership and its timing record |
| ExportLimit.ExportLimitControl.CallService | custom_components/ha_energy_planner/enphase_export_limit.py:388-396 | one service call by the environment, with the disk as it is: recorded unless it provably never left, a refusal with it |
| ExportLimit.ExportLimitControl.AfterCall | custom_components/ha_energy_planner/enphase_export_limit.py:397-427 | a refusal forgets the request and pauses, a cancellation leaves it pending with an earliest read; whatever was called is still pending or resolved on evidence |
| ExportLimit.ExportLimitControl.Send | custom_components/ha_energy_planner/enphase_export_limit.py:364-427 | at most one service call, reported exactly; an unsent command consumes no change budget |
| ExportLimit.ExportLimitControl.Dispatch | custom_components/ha_energy_planner/enphase_export_limit.py:319-427 | the same from the deadline check on, for takeovers and restorations |
| ExportLimit.ExportLimitControl.Execute | custom_components/ha_energy_planner/enphase_export_limit.py:302-317 | computes Executed: what it sends, and when, is in ExecutionSends; a call is made only when reconciliation left the control clear and it is not being restored, at most one, reported exactly |
| ExportLimit.ExportLimitControl.Restore | custom_components/ha_energy_planner/enphase_export_limit.py:429-469 | computes Restoration: what it sends, and when, is in RestorationSends; RESTORED is returned only after the gateway has shown the baseline held at entry |
| ExportLimit.Run | custom_components/ha_energy_planner/enphase_export_limit.py:197-469 | any script of operations, crashes, failing saves and clock jumps, in any environment, is a run of the functions and leaves a history to which all history theorems apply |
| EnphaseLog.ShownIsObserved | custom_components/ha_energy_planner/enphase_adapter.py:158-165 | what a decision takes as shown was shown by the entity, with no command and no crash since |
| EnphaseLog.TakeoverWasShown | custom_components/ha_energy_planner/enphase_control.py:21-25 | a takeover records the profile that the entity showed, with no command and no crash in between |
| EnphaseLog.HeldWasSelected | custom_components/ha_energy_planner/enphase_control.py:21-25 | whatever profile is held, also after a crash, was recorded by a takeover while the entity showed it |
| EnphaseLog.FirstProfileKept | custom_components/ha_energy_planner/enphase_control.py:12-25 | until a crash no later command, failure or rollback replaces the profile that opened the ownership period |
| EnphaseLog.ProfileSurvivesCrashes | custom_components/ha_energy_planner/enphase_control.py:21-25 | from a command on, the profile named on disk at that command stays the held one through any number of crashes, until the period ends |
| EnphaseLog.ProfileIsKept | custom_components/ha_energy_planner/enphase_control.py:12-25 | once a command of the period was sent, the held profile is the one of its takeover, through repeated commands, rollbacks, cancellations and crashes, until the period ends |
| EnphaseLog.CommandIsRecoverable | custom_components/ha_energy_planner/enphase_adapter.py:103-108 | before each planner command the disk names the profile to go back to, and a takeover recorded it |
| EnphaseLog.PeriodEndsWithEvidence | custom_components/ha_energy_planner/enphase_control.py:34-48 | ownership ends only when nothing was sent, or when the entity showed the old profile, or the configured AI profile, after the last command |
| EnphaseLog.FirstCommandSawIt | custom_components/ha_energy_planner/enphase_control.py:21-25 | the first command of a period saw the recorded profile, unless a failed save or the end of the process came between recording and dispatch |
| EnphaseSteps.ConfirmReads | custom_components/ha_energy_planner/enphase_adapter.py:158-165 | a bounded number of looks: success rests on a last look at the desired profile, failure on all looks differing |
| EnphaseSteps.ConfirmKeeps | custom_components/ha_energy_planner/enphase_adapter.py:158-165 | confirmation sends nothing and changes no record, and success means the profile has been shown since the last command |
| EnphaseSteps.RollBackKeeps | custom_components/ha_energy_planner/enphase_adapter.py:167-188 | at most one compensating command, to the profile that the last command replaced; success only when that profile was shown after it |
| EnphaseSteps.PrepareKeeps | custom_components/ha_energy_planner/enphase_control.py:21-25 | the first profile of a period is on disk before anything is sent; a failed flush sends nothing |
| EnphaseSteps.ChangeKeeps | custom_components/ha_energy_planner/enphase_adapter.py:82-156 | what each outcome may claim about what was shown, how many commands were sent, and what is recorded in each case |
| EnphaseSteps.EndJustified | custom_components/ha_energy_planner/enphase_control.py:34-48 | whatever a change led to, the end of its transaction is justified by what the entity showed after the last command |
| EnphaseSteps.ExecuteKeeps | custom_components/ha_energy_planner/enphase_control.py:27-48 | the whole transaction keeps the invariant of memory, disk and history, in every environment, with at most two commands |
| EnphaseSteps.GiveBackKeeps | custom_components/ha_energy_planner/executor.py:1917-1933 | a restoration outside a transaction clears ownership only when the recorded profile was shown after its last command |
| EnphaseRuns.RunKeeps | custom_components/ha_energy_planner/enphase_control.py:12-48 | over every sequence of operations and every environment the history stays good, with at most two commands an operation |
| EnphaseRuns.RunGrows | custom_components/ha_energy_planner/enphase_control.py:12-48 | over every run a profile is held, in memory or on disk, only if it was before or a takeover of the run recorded it |
| EnphaseRuns.CourseIsRun | custom_components/ha_energy_planner/enphase_control.py:21-33 | what a transaction does up to its command, by how its save ends and how its call is answered |
| EnphaseRuns.TakeoverExactly | custom_components/ha_energy_planner/enphase_control.py:21-33 | every first command of the period that a takeover opens sees the recorded profile, in all continuations, if and only if no failed save, no death that leaves the record on disk and no death before the call came between |
| EnphaseRuns.MisledExactly | custom_components/ha_energy_planner/enphase_control.py:12-48 | at any later time, also once the record was withdrawn: a command under the record of a takeover can see another profile if and only if one did, or none was sent since and memory or disk still names the profile |
| EnphaseRuns.InterruptedTakeoverKeepsOlderProfile | custom_components/ha_energy_planner/enphase_control.py:27-33 | a run of two actions that gets there: the save fails, the selection changes, and the next command is sent under the older record |
| EnphaseProfile.EnphaseProfileControl.ConfirmProfile | custom_components/ha_energy_planner/enphase_adapter.py:158-165 | the loop of looks and pauses does what its function says, and each look is an observation of the entity |
| EnphaseProfile.EnphaseProfileControl.RollBack | custom_components/ha_energy_planner/enphase_adapter.py:167-188 | at most one compensating command; success only when the replaced profile was shown after it |
| EnphaseProfile.EnphaseProfileControl.Prepare | custom_components/ha_energy_planner/enphase_control.py:21-25 | the first profile is recorded and flushed before anything is sent |
| EnphaseProfile.EnphaseProfileControl.ChangeProfile | custom_components/ha_energy_planner/enphase_adapter.py:82-156 | every branch of the adapter, against the function of the state and the environment's answers; a change that was sent and not applied has been compensated, told by the history |
| EnphaseProfile.EnphaseProfileControl.Execute | custom_components/ha_energy_planner/enphase_control.py:27-48 | returns to the prior ownership after a confirmed rollback or an unsent command, keeps the first profile when uncertain, and clears it only when the AI profile was shown |
| EnphaseProfile.EnphaseProfileControl.RestoreSaved | custom_components/ha_energy_planner/executor.py:1917-1933 | ownership is cleared exactly when the restoration was applied |
| EnphaseActs.ConfirmLooks | custom_components/ha_energy_planner/enphase_adapter.py:158-165 | confirmation succeeds if and only if one of its looks showed the profile, and looks on as often as it may otherwise |
| EnphaseActs.DispatchActs | custom_components/ha_energy_planner/enphase_adapter.py:82-156 | from the service call on: a command that was sent and not applied is followed by the looks that did not show it and by the compensating command, unless that provably never left; the rollback is reported as successful if and only if it was accepted and one of its looks showed the replaced profile |
| EnphaseActs.ExecuteSends | custom_components/ha_energy_planner/enphase_control.py:27-33 | a planned action sends the profile it asks for, with the profile just seen on disk, whenever the configuration, the save and the answer allow |
| EnphaseActs.ExecuteCompensates | custom_components/ha_energy_planner/enphase_control.py:27-48 | the same for a whole planned action: sent and not applied means compensated, and the result tells exactly whether that was confirmed |
| EnphaseActs.GiveBackSends | custom_components/ha_energy_planner/executor.py:1917-1933 | a restoration sends the recorded profile, or AI control when none is recorded |
| EnphaseProfile.Run | custom_components/ha_energy_planner/enphase_control.py:12-48 | any sequence of actions, restorations, failures and crashes, in any environment, is a run of the functions and leaves a history to which the theorems apply |
| Coordinator.EnergyCoordinator.MarkReplanRequested | custom_components/ha_energy_planner/coordinator.py:3160-3165 | moving the generation makes every earlier plan obsolete and keeps the protocol's invariant |
| Coordinator.EnergyCoordinator.BeginShutdown | custom_components/ha_energy_planner/task_lifecycle.py:29-81 | shutdown withdraws queued and captured plans |
| Coordinator.EnergyCoordinator.BeginRefresh | custom_components/ha_energy_planner/coordinator.py:1426-1466 | the export gate is closed before admission can yield, and an unconfigured gate opens only with a new generation |
| Coordinator.EnergyCoordinator.AdmissionEnds | custom_components/ha_energy_planner/coordinator.py:1453-1461 | only a successful reconciliation opens the gate; if it was closed before this refresh, the generation moves first |
| Coordinator.EnergyCoordinator.ReconcileEnds | custom_components/ha_energy_planner/coordinator.py:1468-1490 | background reconciliation moves the generation before it opens the gate, and a failure leaves the gate closed |
| Coordinator.EnergyCoordinator.CommitIfCurrent | custom_components/ha_energy_planner/coordinator.py:3175-3212 | only the result of the current generation is kept |
| Coordinator.EnergyCoordinator.FinishRefresh | custom_components/ha_energy_planner/coordinator.py:1370-1379 | a refresh queues its own captured plan, unless a shutdown has withdrawn it |
| Coordinator.EnergyCoordinator.SchedulePlanExecution | custom_components/ha_energy_planner/coordinator.py:3236-3253 | the newest plan replaces the queued one and a live drain exists afterwards |
| Coordinator.EnergyCoordinator.DrainTakes | custom_components/ha_energy_planner/coordinator.py:3258-3263 | the drain ends only when nothing is queued or the entry is torn down |
| Coordinator.EnergyCoordinator.DrainAcquires | custom_components/ha_energy_planner/coordinator.py:3264-3270 | an obsolete plan, or one in front of a closed gate, is skipped under the command lock |
| Coordinator.EnergyCoordinator.DrainEvaluates | custom_components/ha_energy_planner/coordinator.py:3301-3346 | an evaluation starts only while the plan's generation is current, and a further action only while the entry is not torn down; otherwise the lock is released |
| Coordinator.EnergyCoordinator.DrainsAll | custom_components/ha_energy_planner/coordinator.py:3255-3291 | no lost wake-up: a live drain left to itself empties the queue whatever became of the plan in hand, and evaluates the newest plan if it is current and the gate is open |
| Coordinator.TurnEvaluates | custom_components/ha_energy_planner/coordinator.py:1370-1379 | a whole turn of refresh, plan and drain in a quiet entry commits one plan and evaluates it, once, under the lock, and leaves the entry quiet |
| Coordinator.Perform | custom_components/ha_energy_planner/coordinator.py:1426-1490 | every step that is enabled is performed, and no other: the state afterwards is that of the step function |
| Coordinator.Run | custom_components/ha_energy_planner/coordinator.py:1426-1490 | under every interleaving: each evaluation runs under the command lock, with its plan's generation equal to the current one, on a plan that never saw the gate closed, in the order the plans were made; while a plan is queued the entry is not torn down, and the drain is dead exactly if it was cancelled |
| Coordinator.CancellationStrandsPlan | custom_components/ha_energy_planner/coordinator.py:3255-3291 | the exception is real: a drain cancelled while it works on an older plan leaves the newer one queued with nobody to run it |
| CalendarHistory.AppendUnique | custom_components/ha_energy_planner/calendar_history.py:150-174 | the coalescing loop computes the specified history |
| CalendarHistory.AppendingKeeps | custom_components/ha_energy_planner/calendar_history.py:150-174 | coalescing loses no confirmed activity: what it removes the new entry carries on |
| CalendarHistory.AppendingRecords | custom_components/ha_energy_planner/calendar_history.py:150-174 | a confirmed entry is represented once it has been coalesced |
| CalendarHistory.AppendingKeepsOnePerPhase | custom_components/ha_energy_planner/calendar_history.py:150-174 | a phase outside Climate that was recorded once stays recorded once |
| CalendarHistory.RetentionDropsOldest | custom_components/ha_energy_planner/calendar_history.py:56-61 | retention keeps order, at most 1000 entries, and drops an unexpired entry only for newer ones |
| CalendarHistory.UpdateCalendarHistory | custom_components/ha_energy_planner/calendar_history.py:76-147 | the reconciliation loops compute the specified update, for plans and for observations |
| CalendarHistory.ConfirmedNeverLost | custom_components/ha_energy_planner/calendar_history.py:76-147 | every confirmed history entry, and every confirmed window already begun, keeps a confirmed entry with its start and location reaching at least to its end or to now, unless it expired or a thousand newer entries replaced it |
| CalendarHistory.EndedWindowIsRecorded | custom_components/ha_energy_planner/calendar_history.py:126-147 | a confirmed published window that has ended is in the history, unless it expired or a thousand newer entries crowd it out |
| CalendarHistory.OnlyConfirmedEnters | custom_components/ha_energy_planner/calendar_history.py:126-147 | nothing provisional becomes history: an entry was there before or is a confirmed window that has ended |
| CalendarHistory.UpdateKeepsShape | custom_components/ha_energy_planner/calendar_history.py:76-147 | history is confirmed-only, sorted, bounded and unexpired; every pending window ends after now |
| CalendarHistory.UpdateKeepsOnePerPhase | custom_components/ha_energy_planner/calendar_history.py:76-147 | outside Climate one continuous window has at most one history entry, if it began so |
| CalendarHistory.PlanReplacesPending | custom_components/ha_energy_planner/calendar_history.py:82-147 | after a new plan the pending windows are exactly its own that still end ahead, provisional ones included unless the history has their name |
| CalendarHistory.ScopedObservationKeepsPending | custom_components/ha_energy_planner/calendar_history.py:82-147 | an observation in one place replaces exactly that place's confirmed windows; all others still ahead stay pending |
| CalendarHistory.SnapshotKeepsPending | custom_components/ha_energy_planner/calendar_history.py:82-147 | an execution snapshot publishes its confirmed windows, each with the furthest extent first saved, and replaces exactly the confirmed windows of the places it reports on |
| Readiness.CountersAreStreaks | custom_components/ha_energy_planner/climate_runtime.py:80-88 | over every run the failure count is the streak of failed consecutive days and the pass count never exceeds the streak of passed ones |
| Readiness.ReadyNeedsTwoDays | custom_components/ha_energy_planner/climate_runtime.py:80-98 | a mode turns ready only when its two latest validation dates are consecutive days that both passed with live evidence |
| Readiness.TwoDaysGrant | custom_components/ha_energy_planner/climate_runtime.py:80-98 | two consecutive days that pass with live, fresh, uncontrolled evidence make a mode ready, whatever came before and however often the first date is refreshed |
| Readiness.ReadyIsLostOnlyFor | custom_components/ha_energy_planner/climate_runtime.py:89-94 | granted readiness lasts exactly as long as evidence is live and fresh and no two consecutive days fail |
| Readiness.SameDayNeverRaises | custom_components/ha_energy_planner/climate_runtime.py:80-88 | a repeated refresh on one date adds no validation and never raises the pass count |
| Readiness.OneDateOneStep | custom_components/ha_energy_planner/climate_runtime.py:80-88 | the same for any number of refreshes on one date |
| Readiness.ReadinessEngine.UpdateReadiness | custom_components/ha_energy_planner/climate_runtime.py:33-119 | one refresh moves every mode by one step and then decides the overall status; degraded is reported only after automatic activity |
| ActionLimits.AllowanceIsExact | custom_components/ha_energy_planner/action_limits.py:45-57 | with no further attempts there is allowance at a later instant exactly from allowance_available_at on |
| ActionLimits.NextExpiryIsExact | custom_components/ha_energy_planner/action_limits.py:45-57 | next_action_expires_at is the instant at which the used count first falls |
| ActionLimits.UseIsExact | custom_components/ha_energy_planner/action_limits.py:44-57 | the announced use counts exactly the attempts that use allowance in the last 24 hours (86,400,000,000 microseconds), and what remains is the rest of the limit |
| ActionLimits.CountedIs | custom_components/ha_energy_planner/action_limits.py:7-24 | which attempts use allowance, asset by asset |
| ActionLimits.PruningIsInvisible | custom_components/ha_energy_planner/action_limits.py:35-42 | a ledger pruned at one time answers every later question as the full ledger would |
| ActionLimits.PruningComposes | custom_components/ha_energy_planner/action_limits.py:35-42 | pruning again later leaves what pruning then would have left |
| ActionLimits.AfterAtIndex | custom_components/ha_energy_planner/action_limits.py:50-51 | in a sorted list the entry at an index decides how many are later than a cut |

## Left out

- Home Assistant plumbing, services, registries, notifications, entities, flows, weather, Recorder and provider calls: input and output only.
- The HVAC feedback matching of the coordinator, the executor's other transactions and its restoration sequence around the calls modelled here.
- The thermal simulation, its validation statistics and the learned models: trajectories, brackets and evidence flags are inputs.
- IEEE rounding: sums, quotients and the elimination are over the reals; the check that every coefficient is finite therefore has no counterpart.
- The battery model's own defaults and clamps: a battery with non-negative capacity, reserve and rates and an efficiency in [0.01, 1] is assumed.
- Coordinator.Run: refreshes are serialised, as Home Assistant's update coordinator does; fairness of the command lock is not modelled, so no bound on waiting is proved. The flag set by a failed set-up, after which the coordinator is discarded, is left out.
- Coordinator.EnergyCoordinator.DrainsAll: shows what the drain does when no other task runs in between; termination against an adversary that keeps queueing plans is not claimed.
- Export-limit ownership: one configured target during one reconcile-and-execute operation (it is looked up again before dispatch and for the final reconcile); the command lock serialises operations; the un-keyed record of old versions and malformed stored fields are not modelled.
- ExportLimit.ExportLimitControl.Audit: audit rows are not modelled beyond the save they cause and the report of an applied or restored command; tickets stand for the persisted audit identity.
- ExportLimit.ExportLimitControl.ReadGateway: any readback may be shown; the sensor's field validation is one flag (unsupported or not).
- ExportLimit.Run: starts without ownership, or with a conflict that an older version latched on a control without a baseline; a store in which an older version left both is not modelled.
- EnphaseLog.CommandIsRecoverable: a profile whose name is the empty string is not a usable baseline in the store, so recoverability and fidelity are stated for other names.
- EnphaseRuns.MisledExactly: for a configuration with an entity and a service; without them nothing is ever sent.
- CalendarHistory.UpdateCalendarHistory: parsing of saved records, descriptions, byte limits and relabelling of summaries; the confirmation of discrete actions is not modelled.
- Readiness.ReadinessEngine.UpdateReadiness: the conjunctions that make evidence live and a validation qualified are inputs, and so are blocker texts.
- ActionLimits.CountedAttempt: timestamps are already parsed.
- CandidateSchedules.SearchWorkIsBounded: bounds simulated schedules; the valuations made per surviving schedule are not counted, as in the source.
- PlanningGrid.PlanningStarts: a positive interval is assumed; for another one the source raises or does not return.
