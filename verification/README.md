# Verified models of the HBF deployment search and its tools

The repository searches for deployments of language models on GPUs with high-bandwidth flash.
This project models the algorithms that decide which simulations run and what their results mean,
and proves what those algorithms promise. `dafny verify dfyconfig.toml` checks everything.

**The native deployment search** (`scripts/exploring_hbf_native_search.py`). `NativeSearch` holds rows, points,
brackets, limits and outcomes; `NativePlan` the replay loop of one layout; `NativeBounds` the two pruners;
`NativeCase`, `NativeMaxBatch` and `NativePlanCase` the branch and bound over layouts. `RowFacts`, `SearchFacts`,
`SearchDirection`, `SearchAim`, `SearchSteps`, `LimitFacts` and `LeastSquares` prove what one step does; `PlanFacts`,
`PlanReplay`, `PlanSteps`, `PlanOutcomes`, `NoPassReports`, `ResumedPlans`, `PrunedReplay` and `SearchBudget` whole plans;
`PrunerVerdicts`, `PruningSoundness`, `SlopeFloorFacts`, `FloorPruning`, `MaxBatchFacts`, `BatchSelection`, `CaseFacts`,
`CaseDecisions` and `ResumedCases` the branch and bound. The modules named `Worked...` evaluate small row stores that reach
the states in question.
Batches are integers, times and rates exact reals, and the saved rows a finite map from batch to row.

**The scan queue** (`scripts/b200_hbm_hbf_scan.py`). `ScanQueue` is the manager as a class with its pending, running and
finished lists; each method is proved against a pure step, and `ScanQueueFacts`, `ScanQueueProgress` and
`ScanQueueRows` prove conservation, safety, progress and what becomes of every row over every sequence of worker exits.

**Closed-loop batches and bisections** (`ClosedLoop`, `BatchBisection`). Seed ages, the refill bound that sizes the import
pool, and the "largest accepted batch" searches, probing through a cache.

**Smaller algorithms.** `IntervalUnion` (prefetch overlap), `ReadBenchmark` (finite transport slots before a serial link),
`JsonText`, `ExactValue`, `ExactFacts`, `ExactOrder` and `TraceComparison` (canonical traces), `Utf8` and `GitRecords` (the history
export), `SlotPlacement` (page striping).

Hypotheses about the simulator are predicates over a `Native` behaviour in `PruningSoundness`; each soundness lemma names
the ones it needs.

## What the proofs found

- The throughput pruner divides the rate at the unscaled SLO crossing by 0.95. The docstring of `bypass_rate_bound` says
  pruning still allows 0.95 of the line; it does so only when a limit lies under the crossing (`ComparedRateExact`,
  `ComparedRateGap`, `WeakLinePrunedTooEarly`). `LineShareExact` has the shares of the line that are safe over real
  batches: the whole line always, and the 0.996 that the comment at lines 69-72 reports while the intercept is at most 0.92
  of the SLO.
- The module docstring says a replay prunes the same layouts or more. That holds for a layout whose first batch is the same
  and whose incumbent and slope floor did not fall (`PrunedStays`, `PrunedLayoutStays`); under any two pruners it holds
  exactly when the new one drops a prefix of the old runs (`PrunedAgainExactly`). Each hypothesis can fail, and a pruned
  layout then returns to the search: a faster anchor moves its first batch (`FasterAnchorRevives`), a failed acceptance run
  lowers the floor (`FailedAcceptanceRevives`), and a too-big one takes the incumbent to zero (`TooBigAcceptanceForgets`).
- The same docstring says the incumbent only grows. In one search, with its pruner and first batch fixed, a layout's best
  passing rate falls exactly when its plan stops reporting points of which some passed (`ResumedRate`), as after a too-big
  acceptance run. While a case's first pass searches as before, its incumbent falls only through such a layout
  (`IncumbentFalls`); when the anchor gets faster it can fall although every layout still reports
  (`FasterAnchorLowersIncumbent`). That old runs are a prefix of the new ones is unconditional in one search (`Resume`).
- The batch pruner raises an exception in one state, described by `BatchPrunerCrashes` and, over whole searches, by
  `CrashedExactly`: a point reached the bypass capacity, no run gave a limit, and a further batch is asked for. A passing
  point at that capacity reaches it unless the search ends there; so does a failed acceptance run after a failing point
  there, in the whole case of `CaseRaises`.
- `no_passing_point` and `slo_unreachable` can be reported although a point passes. TPOT falling with the batch is not
  enough: the limit on further batches has to drop under a passing point first (`MisreportExactly`, `LimitDropMisreports`).
- `exact_value` sorts a mapping by its keys only, so keys with one document and different values keep their insertion order
  (`CanonicalExactly`, `NanKeysKeepOrder`).
- An interrupted point is both in `finished` and back in `pending`; the conservation law is therefore over the counted statuses.

## Model

| member | source | states |
|---|---|---|
| `NativePlan.PlanLayout` | scripts/exploring_hbf_native_search.py:243-280 | The replay loop stops for every finite row store and returns a plan: a run list grown only by asked, answered and unpruned batches, with the reason it stops. The loop terminates because each turn tries a saved batch not tried before. |
| `PlanFacts.ReplaySound` | scripts/exploring_hbf_native_search.py:243-280 | Over every replay no batch is tried twice, every batch is a positive multiple of the quantum, and after a too-big run only batches below the smallest too-big one are tried. |
| `PlanFacts.RequestsSound` | scripts/exploring_hbf_native_search.py:262-271 | The batch a plan asks for next has no settled row, is new, on the quantum grid and below every too-big batch. |
| `PlanFacts.RunsWithinRows` | scripts/exploring_hbf_native_search.py:257-271 | A plan never holds more runs than there are saved rows. |
| `PlanReplay.PlanUnique` | scripts/exploring_hbf_native_search.py:243-280 | Rows, first batch and pruner determine the plan: any two plans of one search are equal. |
| `PlanReplay.ReplayKept` | scripts/exploring_hbf_native_search.py:257-280 | A run list stays a replay when the row store grows and settled rows keep their values. |
| `PlanReplay.Resume` | scripts/exploring_hbf_native_search.py:38-44 | Resume is replay. With more rows the old runs are a prefix of the new ones; an unanswered request is asked again and nothing else changes; a failed or pruned plan is final; a settled plan changes exactly when its acceptance batch turns into a further point. |
| `ResumedPlans.PointsGrow` | scripts/exploring_hbf_native_search.py:42-44 | In one search, its pruner and first batch fixed, a resumed plan that still reports its points has every point of the plan before. |
| `ResumedPlans.ResumedRate` | scripts/exploring_hbf_native_search.py:42-44 | In one search, its pruner and first batch fixed, the best passing rate of a layout falls over a resume exactly when the plan stops reporting points of which some passed. |
| `ResumedPlans.StopsReporting` | scripts/exploring_hbf_native_search.py:262-271 | A plan that stops reporting was settled, and its saved acceptance run joined its runs. |
| `ResumedCases.IncumbentFalls` | scripts/exploring_hbf_native_search.py:42-44 | The docstring's growing incumbent, over a whole case: if its first pass searches as before (same anchor index and anchor rate, first batches and first slope floor), the incumbent of a resumed case falls only if some layout stops reporting points of which some passed. |
| `WorkedPruners.FasterAnchorLowersIncumbent` | scripts/exploring_hbf_native_search.py:673-708 | The unchanged anchor rate is needed: a case in which the anchor gets faster, the first batches and the floor stay, every layout still reports its points, and the incumbent falls, because the faster anchor drops the layout that held it on its first run. |
| `WorkedCases.TooBigAcceptanceForgets` | scripts/exploring_hbf_native_search.py:673-708 | A whole case in which a layout stops reporting: once the acceptance run proves too big the anchor waits without points for a batch under it, the incumbent falls to zero, and the case asks for that batch. |
| `PlanOutcomes.OutcomeJustified` | scripts/exploring_hbf_native_search.py:425-452 | Every settled outcome is justified by measured points: an interpolated batch is a quantum multiple between the ends of a measured passing/failing bracket (low end included), below every too-big batch, with a predicted TPOT between the two estimates; a limited outcome names a measured passing batch, the largest of all or the passing end of the bracket; the others name what was or was not measured. |
| `PlanOutcomes.AcceptedWithinSlo` | scripts/exploring_hbf_native_search.py:283-308 | A settled interpolated batch that already has a row was not too big, and when measured its upper bound is within the SLO. |
| `NoPassReports.MisreportExactly` | scripts/exploring_hbf_native_search.py:425-452 | Exactly when a settled search reports that nothing passes although a measured point does: all its points passed until the limit on further batches dropped under the largest of them, and everything measured from then on failed under them all. |
| `NoPassReports.KeptLimitReport` | scripts/exploring_hbf_native_search.py:311-341 | For any shape of TPOT: while the limit never drops under a passing point, a settled search reports that nothing passes if and only if no measured point passes. |
| `PlanOutcomes.MonotoneReport` | scripts/exploring_hbf_native_search.py:449-452 | With nondecreasing upper bounds, one of the outcomes without a passing point is reported if and only if no measured point passes. |
| `PlanOutcomes.SettledDominates` | scripts/exploring_hbf_native_search.py:425-452 | With nondecreasing upper bounds, a settled plan that measured a passing point proposes a batch at or above all of them. |
| `PlanOutcomes.UnbracketedMisreported` | scripts/exploring_hbf_native_search.py:425-452 | Without a bracket and with some failing point the outcome always reports that nothing passes, whatever the other points are. |
| `WorkedReports.LimitDropMisreports` | scripts/exploring_hbf_native_search.py:333-335 | A row store that does it: 200 passes but fills its wall budget, the projected limit drops to 100, 100 fails, and the plan settles as slo_unreachable. |
| `PlanOutcomes.FailureNarrows` | scripts/exploring_hbf_native_search.py:210-216 | A failing measurement strictly inside a bracket keeps its low end and becomes its high end. |
| `PlanOutcomes.AcceptancesConverge` | scripts/exploring_hbf_native_search.py:274-298 | Without too-big runs every further run of a bracketed search keeps the low end and lowers the high end by at least one quantum. |
| `PlanOutcomes.AcceptanceBudget` | scripts/exploring_hbf_native_search.py:274-308 | So a bracketed search makes fewer than (high - low)/q further runs, never waits for another point, and settles between the same passing end and a failing one. |
| `SearchBudget.OnlyPassingClimbs` | scripts/exploring_hbf_native_search.py:355-413 | A batch above every run so far is asked for only while some point was measured, none failed and no run was too big; it lies a step or more past every point and within the limit. |
| `SearchBudget.CapacityHolds` | scripts/exploring_hbf_native_search.py:25-27 | Over every replay: until a point reaches the bypass capacity, no run and no request lies above both that capacity and the first batch. |
| `SearchBudget.FailureCaps` | scripts/exploring_hbf_native_search.py:355-413 | Over every replay: once a run was too big or above the SLO, every later run lies under one made until then. |
| `SearchBudget.CapacityBudget` | scripts/exploring_hbf_native_search.py:243-280 | A plan makes at most capacity / quantum runs (or first batch / quantum, when that is larger) if no point before its last run reached the bypass capacity. |
| `SearchBudget.FailureBudget` | scripts/exploring_hbf_native_search.py:243-280 | Once a run was too big or above the SLO, the highest batch until then over the quantum bounds the runs of the whole plan. |
| `SearchBudget.SessionBudget` | scripts/exploring_hbf_native_search.py:42-44 | A whole resumed search, planned again over growing stores: its plan changes at most once more than its last plan has runs, so at most capacity / quantum + 1 times under the same condition. |
| `SearchFacts.BracketFacts` | scripts/exploring_hbf_native_search.py:210-216 | The bracket is the first passing/failing neighbour pair; there is none exactly when every failing point lies under every passing one. |
| `SearchFacts.BracketUnique` | scripts/exploring_hbf_native_search.py:210-216 | No other pair satisfies the description of the bracket. |
| `SearchFacts.FollowingFacts` | scripts/exploring_hbf_native_search.py:355-413 | The following batch is untried, on the quantum grid and below every too-big batch, over all branches: secant, doubling, halving, bisection and bracketing. |
| `SearchDirection.FollowingDirection` | scripts/exploring_hbf_native_search.py:355-413 | The following batch heads toward the SLO: past every point by a step when all are within it and no tighter limit binds, under every point by a step when the smallest one is not, between the passing and the failing end of a bracket; without a bracket it is a step from every point and within the limit. |
| `SearchDirection.TargetSide` | scripts/exploring_hbf_native_search.py:377-394 | The aimed batch is at or past the largest point when all are within the SLO and under the smallest when that one is not, over the scaled bypass line, the two-point lines, doubling and halving. |
| `SearchAim.AimExactly` | scripts/exploring_hbf_native_search.py:377-394 | The aimed batch before any limit, as an equation: with one point where the bypass line scaled to it meets the SLO; with more where the line through the two largest points (all within the SLO) or the two smallest meets it, (x - b1)(u2 - u1) = (slo - u1)(b2 - b1); twice the largest or half the smallest point exactly when that line does not rise. |
| `SearchAim.AimUnique` | scripts/exploring_hbf_native_search.py:377-394 | No other batch meets those equations. |
| `SearchSteps.FollowingExactly` | scripts/exploring_hbf_native_search.py:355-413 | One whole step: a batch follows if and only if it is untried and the one the situation proposes: halfway to a too-big batch in a bracket whose chord meets the SLO at or past it; a reported capacity or half the batch without points; else the aimed batch, or halfway under a too-big one, within the limit and on the grid, or a step off the nearest point, spaced from every point. |
| `PlanSteps.RunsExactly` | scripts/exploring_hbf_native_search.py:257-280 | Over whole plans: the first run is the first batch, every later run and every request is the batch those equations give for the runs before it, or without one their refused acceptance batch; after a settled plan there is neither. |
| `WorkedSteps.SecantReplay` | scripts/exploring_hbf_native_search.py:385-388 | A replay on the secant: 220 passes at 54, 450 at 77, and the plan asks for 680. |
| `SearchSteps.BracketOutcome` | scripts/exploring_hbf_native_search.py:425-437 | In a bracket the proposed batch is the grid batch where the chord of the upper bounds meets the SLO, its TPOT the chord of the estimates there; at or past a too-big batch the passing end is the outcome. |
| `SearchSteps.OpenOutcome` | scripts/exploring_hbf_native_search.py:438-452 | Without a bracket: no measurement, the largest passing point with the label of its limit, or nothing that passes, told apart by whether the smallest point is one quantum. |
| `RowFacts.RowCounts` | scripts/exploring_hbf_native_search.py:183-197 | What a row counts as: measured with bounds, too big when its capacity or, outside the Prefill pass, its forecast was refused for one of six named reasons, failed, pending, or of no use. |
| `RowFacts.LabelOfReason` | scripts/exploring_hbf_native_search.py:319-324 | The label of a too-big batch: the wall before the import before the interval, else the capacity. |
| `RowFacts.RunHolds` | scripts/exploring_hbf_native_search.py:262-264 | A run keeps the status, the reason and the reported capacity of its row. |
| `RowFacts.PointWall` | scripts/exploring_hbf_native_search.py:200-207 | The wall of a point is its re-run alone, else what is left of the run after its Prefill pass, and never negative. |
| `RowFacts.DefaultFirstIs` | scripts/exploring_hbf_native_search.py:225-240 | The quantum is the larger of the two degrees, and the default first batch half the candidate, at most 512, on the grid. |
| `LimitFacts.LimitBinds` | scripts/exploring_hbf_native_search.py:311-341 | The limit is at most every reported capacity, under every too-big batch, at most the bypass capacity until a point reaches it, and above the quantum within the projected wall and memory budgets. |
| `LimitFacts.LimitExactly` | scripts/exploring_hbf_native_search.py:311-341 | The limit and its label are those of the tightest of the five sources, the first of equally tight ones, each spelled out on the runs and points; there is none exactly when no source gives one. |
| `SearchFacts.InterpolatedInside` | scripts/exploring_hbf_native_search.py:348-352 | The interpolated batch is on the grid and in [low, high), because the SLO crossing lies before the failing end. |
| `NativeSearch.ByBatch` | scripts/exploring_hbf_native_search.py:210-216 | Points in batch order: the same points, sorted. |
| `QuantumFacts.FloorToIsGreatest` | scripts/exploring_hbf_native_search.py:234-235 | Flooring gives the greatest multiple of the quantum at or below a real batch. |
| `QuantumFacts.RoundedFacts` | scripts/exploring_hbf_native_search.py:234-235 | Rounding is a positive multiple, the greatest one at or below the batch once that reaches the quantum, else the quantum itself. |
| `LeastSquares.FitLineIsLeastSquares` | scripts/exploring_hbf_native_search.py:173-180 | No intercept and slope give a smaller sum of squared errors than the fitted line, also for one point or several at one batch. |
| `PruningSoundness.BypassRateBounds` | scripts/exploring_hbf_native_search.py:455-469 | Above the bypass line no batch within the SLO and the limit runs faster per GPU than the bypass rate bound. |
| `PrunerVerdicts.RateVerdictExactly` | scripts/exploring_hbf_native_search.py:511-530 | The throughput pruner drops a layout if and only if its bypass line over 0.95, a point above the SLO with a tenth added, or the floor line of a passing point stays under the incumbent, each as a product inequality; it names the first that does. |
| `PrunerVerdicts.BatchVerdictExactly` | scripts/exploring_hbf_native_search.py:542-573 | The batch pruner crashes exactly without a limit, and otherwise drops a layout if and only if one of its three bounds is not above the incumbent. |
| `PruningSoundness.FloorLineRate` | scripts/exploring_hbf_native_search.py:499-508 | On a line of positive slope from a passing point the rate peaks at the point or where the line reaches the SLO. |
| `PruningSoundness.RatePruneSound` | scripts/exploring_hbf_native_search.py:511-530 | Throughput pruning is sound at every share of the bypass line that suffices: if native TPOT is at least that share of the line, estimates are under their upper bounds, rejections bind, TPOT grows by the floor slope beyond passing points and the rate margin holds, then a dropped layout has no batch within the SLO whose per-GPU rate reaches the incumbent. |
| `PruningSoundness.LineShareExact` | scripts/exploring_hbf_native_search.py:455-469 | Exactly which shares suffice: what the line at a share allows is within what the pruner compares if and only if a limit lies at or under the crossing, or the share meets the stated bound at the limit or at the SLO. |
| `PruningSoundness.LineShareNeeded` | scripts/exploring_hbf_native_search.py:518-519 | At any other share some real batch and TPOT on the shared line, within the SLO and the limit, run faster than the pruner compares. |
| `PruningSoundness.CrossingShareSuffices` | scripts/exploring_hbf_native_search.py:518-519 | A share that suffices without a limit suffices with any. |
| `PruningSoundness.ReportedShareSuffices` | scripts/exploring_hbf_native_search.py:69-73 | The reported 0.996 of the line suffices while the intercept is at most 0.92 of the SLO. |
| `PruningSoundness.BypassBatchBounds` | scripts/exploring_hbf_native_search.py:533-539 | With native TPOT at least BYPASS_TPOT_FLOOR of the line, a batch within the SLO and the limit is at most the bypass batch bound. |
| `PruningSoundness.BatchPruneSound` | scripts/exploring_hbf_native_search.py:554-573 | Batch pruning is sound under the weaker TPOT hypothesis: a dropped layout has no passing batch per GPU above the incumbent. |
| `PruningSoundness.AssumptionsMeet` | scripts/exploring_hbf_native_search.py:455-573 | The assumptions of both soundness results hold together, with a passing batch, a failing point, a too-big run and a layout that both pruners drop. |
| `PruningSoundness.BatchPrunerCrashes` | scripts/exploring_hbf_native_search.py:557-563 | The batch pruner takes the minimum of an empty list if and only if a point reached the bypass capacity and no run reported a capacity or proved too big. |
| `PrunedReplay.CrashedExactly` | scripts/exploring_hbf_native_search.py:557-563 | Over whole searches: a batch-pruned plan ends in that exception if and only if no run failed, a further batch is asked for after a point reached the bypass capacity, and no run reported a limit. |
| `WorkedStores.AnchorCrashes` | scripts/exploring_hbf_native_search.py:557-563 | A replay that reaches it: 200 passes, 400 fails at the bypass capacity, and the failed acceptance run at 360 is asked for again under no limit. |
| `WorkedCases.FirstPassCrashes` | scripts/exploring_hbf_native_search.py:586-597 | Every first pass of the batch search over that store ends in the exception. |
| `WorkedCases.CaseRaises` | scripts/exploring_hbf_native_search.py:743-747 | So does every whole case of that layout, once its throughput search settled. |
| `PruningSoundness.SharedRateBounds` | scripts/exploring_hbf_native_search.py:455-469 | What the line allows at a share bounds the rate of every batch within the SLO and the limit. |
| `PruningSoundness.SharedRateAttained` | scripts/exploring_hbf_native_search.py:455-469 | That bound is the best possible: a TPOT at the share of the line reaches it. |
| `PruningSoundness.WeakRateBounds` | scripts/exploring_hbf_native_search.py:533-538 | Under the weaker hypothesis a rate bound at the scaled crossing holds for every batch within the SLO. |
| `PruningSoundness.WeakRateAttained` | scripts/exploring_hbf_native_search.py:533-538 | A TPOT at the weaker hypothesis reaches that bound. |
| `PruningSoundness.ComparedRateExact` | scripts/exploring_hbf_native_search.py:518-519 | The rate the throughput pruner compares is at most the bound the weaker hypothesis allows, and equals it if and only if a limit lies at or under the unscaled crossing. |
| `PruningSoundness.ComparedRateGap` | scripts/exploring_hbf_native_search.py:518-519 | Without a limit it falls short by exactly the rate of intercept * (1/0.95 - 1)/slope batches at the SLO. |
| `PruningSoundness.WeakLinePrunedTooEarly` | scripts/exploring_hbf_native_search.py:518-519 | A native TPOT meeting only the weaker hypothesis for which the pruner drops a layout that beats the incumbent. |
| `FloorPruning.FloorDrops` | scripts/exploring_hbf_native_search.py:42-44 | On the same runs and points, both pruners drop whatever they dropped when neither the incumbent nor a slope floor that bounds the layout fell, and estimates are under their upper bounds. |
| `PrunedReplay.PrunedAgainExactly` | scripts/exploring_hbf_native_search.py:42-44 | A pruned plan, resumed over a later store from the same first batch under any other pruner, is pruned again on no more runs if and only if that pruner drops some prefix of its runs and keeps all before. |
| `PrunedReplay.PrunedStays` | scripts/exploring_hbf_native_search.py:42-44 | So it stays pruned, on no more runs, under every pruner that drops whatever the old one dropped. |
| `PrunedReplay.TightenedDropsMore` | scripts/exploring_hbf_native_search.py:42-44 | Such is a pruner of the same kind whose incumbent did not fall and whose slope floor, where it bounds the layout, did not fall, when saved estimates are under their upper bounds. |
| `ResumedCases.PrunedLayoutStays` | scripts/exploring_hbf_native_search.py:42-44 | The docstring's claim on whole cases: over a store that kept its settled rows, a pruned layout stays pruned, on no more runs, if its first batch is the same, neither the incumbent nor the floor of its last plan fell, and its saved estimates are under their upper bounds. |
| `WorkedCases.FasterAnchorRevives` | scripts/exploring_hbf_native_search.py:687-698 | The same first batch is needed: a faster anchor raises the anchor rate and the incumbent and leaves both floors, but a pruned layout is then asked to run at its moved first batch. |
| `FloorPruning.RateDropsPersistExactly` | scripts/exploring_hbf_native_search.py:499-530 | At one incumbent and a positive floor the throughput pruner keeps dropping every dropped layout if and only if the floor does not fall. |
| `FloorPruning.BatchDropsPersistExactly` | scripts/exploring_hbf_native_search.py:542-573 | The same for the batch pruner. |
| `FloorPruning.MoreRatiosLowerFloor` | scripts/exploring_hbf_native_search.py:482-496 | More measured slope ratios never raise an existing floor. |
| `ResumedPlans.MoreMeasuredLowerFloor` | scripts/exploring_hbf_native_search.py:482-496 | So more measured points of the same layouts never do. |
| `WorkedCases.AnchorFloor` | scripts/exploring_hbf_native_search.py:482-496 | The computed floor of one layout falls from 0.76 to 0.25 when its failed acceptance run joins its points. |
| `WorkedCases.FailedAcceptanceRevives` | scripts/exploring_hbf_native_search.py:651-716 | The floor that did not fall is needed: with the acceptance run open a second layout is pruned; once that run is saved, above the SLO, the same layout is asked to run, at the same incumbent and first batch. |
| `WorkedCases.AcceptanceAsked` | scripts/exploring_hbf_native_search.py:727-742 | The first store of that case asks for exactly the run the second one holds. |
| `WorkedCases.StoresKeep` | scripts/exploring_hbf_native_search.py:42-44 | Each later store keeps every settled row of the ones it grew from. |
| `WorkedLines.LinesAreFitted` | scripts/exploring_hbf_native_search.py:163-180 | The bypass lines of all worked layouts are fitted to screening trials of positive TPOT, at a small batch and at the candidate, the largest one up to the capacity with the line within the SLO. |
| `SlopeFloorFacts.SlopeFloorExact` | scripts/exploring_hbf_native_search.py:482-496 | There is no floor exactly without a calibrating pair; otherwise it is SLOPE_FLOOR times the least ratio, capped at 1, over all passing points and points at least MIN_STEP larger of one layout. |
| `CaseFacts.FloorsExactly` | scripts/exploring_hbf_native_search.py:703-714 | The first pass prunes by 0.8 of the least ratio over the layouts up to the anchor, the second by that over every layout planned on the first. |
| `SlopeFloorFacts.FloorUnderMeasured` | scripts/exploring_hbf_native_search.py:482-508 | A positive floor line from any passing point stays under every measured point of its layout at least MIN_STEP larger. |
| `NativeBounds.RejectionLimits` | scripts/exploring_hbf_native_search.py:517-517 | The limits of a pruner are exactly the reported capacities and one less than each too-big batch. |
| `NativeCase.PlanPointsOnGrid` | scripts/exploring_hbf_native_search.py:243-280 | The points a plan carries are on the quantum grid, so their batches are positive. |
| `NativeMaxBatch.MaxBatch` | scripts/exploring_hbf_native_search.py:576-640 | Runs both pruned passes and the selection, or reports the crash of a pruner: the passes replay every layout under the measured incumbent, then all but the holder under the best passing batch. |
| `NativeMaxBatch.Settle` | scripts/exploring_hbf_native_search.py:604-640 | Requests, acceptance, selection or fallback from settled layouts, as the selection rule states. |
| `BatchSelection.BatchAcceptedWhen` | scripts/exploring_hbf_native_search.py:608-615 | A batch is accepted if and only if every plan ended without a failed run and one proposes a batch that reaches the incumbent per GPU. |
| `BatchSelection.BatchAcceptedIsLargest` | scripts/exploring_hbf_native_search.py:611-616 | The accepted one is the largest of those per GPU, cross-multiplied, and of equals the last layout. |
| `BatchSelection.SelectedAs` | scripts/exploring_hbf_native_search.py:614-640 | It is selected with its label when limited or completed, asked for while its run is open, and otherwise the best measured point is. |
| `BatchSelection.FallbackExactly` | scripts/exploring_hbf_native_search.py:634-640 | The best measured point is the largest passing batch per GPU of the throughput and the final plans, none exactly when nothing passes. |
| `MaxBatchFacts.IncumbentFacts` | scripts/exploring_hbf_native_search.py:586-603 | The incumbent bounds every passing point measured before or on the first pass, and a positive one is a passing point still on record. |
| `MaxBatchFacts.SelectedDominates` | scripts/exploring_hbf_native_search.py:611-640 | Any selected batch per GPU is at least the incumbent, so at least every passing measured point that seeded it. |
| `MaxBatchFacts.SelectedIsBest` | scripts/exploring_hbf_native_search.py:604-640 | With nondecreasing bounds where layouts settled and the documented hypotheses where they were pruned, any selected batch per GPU is at least every passing measured point: before, on the first pass, and of the final layouts. |
| `MaxBatchFacts.SettledSelects` | scripts/exploring_hbf_native_search.py:604-640 | A settled search without requests or failures selects nothing if and only if no layout proposes a batch and no measured point passes. |
| `MaxBatchFacts.PrunedLayoutsExcluded` | scripts/exploring_hbf_native_search.py:589-603 | Under the documented hypotheses, at the slope floor its own last plan was made under, a pruned layout has no passing batch per GPU above the final incumbent. |
| `MaxBatchFacts.SelectedPasses` | scripts/exploring_hbf_native_search.py:627-640 | What is selected has a saved row on the grid that is measured within the SLO, or unmeasured and completed as the acceptance run. |
| `NativePlanCase.PlanCase` | scripts/exploring_hbf_native_search.py:651-748 | The whole case: anchor layouts in bound order until one passes or waits, two rate-pruned passes over the rest, then requests, acceptance and the batch search. |
| `NativePlanCase.PassTwice` | scripts/exploring_hbf_native_search.py:700-714 | The two passes over the later layouts, each under its own incumbent and floor, sparing the holder on the second. |
| `NativePlanCase.AnchorLayouts` | scripts/exploring_hbf_native_search.py:673-685 | Layouts are searched unpruned in bound order up to the first that waits for a run or has a passing point. |
| `NativePlanCase.PassLater` | scripts/exploring_hbf_native_search.py:704-714 | One pruned pass replans exactly the later layouts other than the holder. |
| `NativePlanCase.Decide` | scripts/exploring_hbf_native_search.py:717-748 | The requests, acceptance and batch search that follow from the planned layouts. |
| `NativePlanCase.SearchOrderSorted` | scripts/exploring_hbf_native_search.py:671-672 | The search order holds every layout once, by descending bound. |
| `NativePlanCase.FirstBatchOnGrid` | scripts/exploring_hbf_native_search.py:687-698 | The first batch of a later layout is a positive multiple of its quantum. |
| `CaseDecisions.FirstBatchExactly` | scripts/exploring_hbf_native_search.py:687-698 | It is the least multiple at which passing the SLO gives the anchor rate, or the last one within 512, unless only the default first batch has a row. |
| `CaseDecisions.DecidesWhen` | scripts/exploring_hbf_native_search.py:717-742 | A case accepts a proposal if and only if every layout ended without a failed run and one proposes; while a layout waits, exactly the requests of the waiting plans are made. |
| `CaseFacts.AnchorUnderIncumbent` | scripts/exploring_hbf_native_search.py:673-708 | The anchor rate is at most the incumbent of the second pass. |
| `CaseFacts.PrunedCannotReach` | scripts/exploring_hbf_native_search.py:700-716 | In a planned case a pruned layout has no batch within the SLO whose per-GPU rate reaches the incumbent, under the hypotheses of throughput pruning at the slope floor its own last plan was made under. |
| `CaseFacts.CaseRequestsNew` | scripts/exploring_hbf_native_search.py:717-747 | Every run a case asks for is new: no settled row, a positive multiple of the quantum. |
| `CaseDecisions.AcceptedIsFastest` | scripts/exploring_hbf_native_search.py:643-648 | The accepted proposal is the fastest per GPU: for every settled proposal of batch b, TPOT t and g GPUs and the accepted one of B, T and G, b*T*G <= B*t*g, the last layout of equals; its score s has s*T*G = 1e9*B. The TPOT is the predicted one of an interpolated batch and the measured one of a limited batch. |
| `CaseDecisions.AcceptanceRun` | scripts/exploring_hbf_native_search.py:727-742 | The accepted batch is asked for first unless it is limited or its row settled; then the largest batch is searched. |
| `CaseDecisions.BatchSearchStarts` | scripts/exploring_hbf_native_search.py:743-747 | The batch search of a layout starts, on both passes, at the first run of its throughput plan: that run comes first in its plan and is never asked for. |
| `WorkedDecisions.SmallerBatchAccepted` | scripts/exploring_hbf_native_search.py:727-742 | A whole case in which the larger batch loses: 256 at a TPOT of 57 is accepted over 360 at 80.4. |
| `WorkedDecisions.BatchSearchReplays` | scripts/exploring_hbf_native_search.py:743-747 | A whole case in which the batch search replays the saved run at 400 and asks for 290 next. |
| `ScanQueue.QueueManager.constructor` | scripts/b200_hbm_hbf_scan.py:542-566 | A manager starts with the loaded pending points, finished results and adopted workers and no stop reason. |
| `ScanQueue.QueueManager.Launch` | scripts/b200_hbm_hbf_scan.py:573-592 | Starts the first eligible pending points while a worker is free, none while pausing; nothing else changes. |
| `ScanQueue.QueueManager.Collect` | scripts/b200_hbm_hbf_scan.py:593-614 | Every exited worker leaves running and its result joins finished; failed and interrupted ones stop the queue, an interrupted point also returns to the front. |
| `ScanQueue.QueueManager.Iterate` | scripts/b200_hbm_hbf_scan.py:569-620 | One iteration: stop request, launch, collect, judge the retry group and the pause. |
| `ScanQueue.QueueManager.Run` | scripts/b200_hbm_hbf_scan.py:566-640 | The loop over any sequence of stop requests and worker exits is the run of its iterations. |
| `ScanQueue.QueueManager.Drain` | scripts/b200_hbm_hbf_scan.py:645-665 | After the loop, exited workers with a reusable or failed result finish, other exited points return to pending, the rest keep running. |
| `ScanQueueFacts.RunConserves` | scripts/b200_hbm_hbf_scan.py:566-640 | Over every run pending, running and counted results hold the same multiset of points: none is lost or duplicated, interrupted ones included. |
| `ScanQueueFacts.DrainConserves` | scripts/b200_hbm_hbf_scan.py:652-665 | The drain moves points but keeps that multiset. |
| `ScanQueueFacts.StatusAddsUp` | scripts/b200_hbm_hbf_scan.py:621-630 | At every status write completed + capacity_rejected + forecast_rejected + failed + cancelled + pending + running equals the manifest size. |
| `ScanQueueFacts.CountsAreCounted` | scripts/b200_hbm_hbf_scan.py:423-429 | The five counts count every finished row except interrupted ones, once. |
| `ScanQueueFacts.RunSafe` | scripts/b200_hbm_hbf_scan.py:525-592 | From a start within the limit, running never exceeds the workers over any run, and two running workers share an architecture only if both were adopted. |
| `ScanQueueProgress.NeverSpins` | scripts/b200_hbm_hbf_scan.py:568-582 | With retry ids in the manifest, no worker running, points pending and no stop reason, an iteration starts a point or stops. |
| `ScanQueueProgress.IterationWork` | scripts/b200_hbm_hbf_scan.py:568-620 | A work measure falls by one for each launch and each exit of an iteration without a stop. |
| `ScanQueueProgress.QueueEnds` | scripts/b200_hbm_hbf_scan.py:568-640 | If workers eventually exit, the queue ends within that measure of iterations. |
| `ScanQueueProgress.RetryPointsFirst` | scripts/b200_hbm_hbf_scan.py:573-583 | Over every run from a start without interrupted rows and with each point held once: whenever a point outside the retry group starts, every retry point has a counted result and none is pending or running. |
| `ScanQueueRows.RefusalStops` | scripts/b200_hbm_hbf_scan.py:615-617 | Spelled on rows, over every run of at least one iteration: when every retry point has a row and one of them is not a completed forecast with an accepted budget decision, the run has stopped; it gives that reason only then; and a stopped run never changes. |
| `ScanQueueRows.ExitsCount` | scripts/b200_hbm_hbf_scan.py:593-614 | In one iteration an exited worker leaves its saved row, or a failed one without a result; failed and interrupted rows stop the queue, and an interrupted point is pending again in front. |
| `ScanQueueRows.StopReasons` | scripts/b200_hbm_hbf_scan.py:569-620 | Each stop reason is given only for what it names: the request exactly, a failed or an interrupted exit, the boundary once nothing runs. |
| `ScanQueueRows.LaunchFills` | scripts/b200_hbm_hbf_scan.py:574-583 | After the launches no free place is left that a pending point could take. |
| `ScanQueueRows.ExitsDrain` | scripts/b200_hbm_hbf_scan.py:653-665 | After the drain an exited worker with one of five kept statuses is counted, any other exited point is pending, and the rest still run. |
| `ScanQueueRows.CountsByStatus` | scripts/b200_hbm_hbf_scan.py:423-429 | Each count of the status file is the number of rows with its statuses. |
| `ScanQueueRows.StartPlaces` | scripts/b200_hbm_hbf_scan.py:542-560 | A start is refused if and only if a failed result stands without --retry-failed; otherwise cancelled and standing results are counted, adopted workers run, and every other point is pending. |
| `ScanQueueProgress.LoadQueue` | scripts/b200_hbm_hbf_scan.py:542-566 | Loading gives the initial state, or refuses a failed point without retry. |
| `ScanQueueProgress.InitialHolds` | scripts/b200_hbm_hbf_scan.py:542-565 | Loaded pending, adopted and finished points are the manifest, so the conservation laws apply from the start. |
| `ScanQueueProgress.InitialOrdered` | scripts/b200_hbm_hbf_scan.py:542-565 | A queue loaded over distinct points is such a start. |
| `ScanQueueProgress.PrioritizedOrders` | scripts/b200_hbm_hbf_scan.py:561-562 | Pending starts in the order of the retry ids, all other points after them in manifest order. |
| `ScanQueueRows.PrioritizedStable` | scripts/b200_hbm_hbf_scan.py:561-562 | Points of equal priority, as all outside the retry group are, keep their manifest order. |
| `ScanQueueProgress.PrioritizedPermutes` | scripts/b200_hbm_hbf_scan.py:561-562 | Ordering by priority keeps the pending points. |
| `ClosedLoop.SeedAgesByGroup` | scripts/exploring_hbf_native_config.py:100-105 | The ages of each EP group in serving order. |
| `ClosedLoop.GroupPositions` | scripts/exploring_hbf_native_config.py:102-104 | Group g gets the ages of the seeds g, g + ep, g + 2 ep and so on. |
| `ClosedLoop.SeedPhases` | scripts/exploring_hbf_native_config.py:100-105 | Each group hits every phase 0..output-1 the rounded-down or rounded-up (B/ep)/output times. |
| `ClosedLoop.AgeIsCentered` | scripts/exploring_hbf_native_config.py:104-104 | Each age is the middle of its seed part of the output, rounded down. |
| `ClosedLoop.LoopPhase` | scripts/exploring_hbf_native_config.py:457-466 | Closed-loop steps permute the phases: any count later is some phase count of the seeds. |
| `ClosedLoop.RefillBound` | scripts/exploring_hbf_native_config.py:75-80 | Over whole runs every step frees at most ceil((B/ep)/output) slots of a group, and at least the rounded-down share. |
| `ClosedLoop.WindowBound` | scripts/exploring_hbf_native_config.py:75-80 | Any window of steps frees at most that many slots per step. |
| `ClosedLoop.ImportPool` | scripts/exploring_hbf_native_config.py:86-97 | The pool size over KV layers, ranks, write rate and SLO, or the refusal of an indivisible batch. |
| `ClosedLoop.LayerKvIs` | scripts/exploring_hbf_native_config.py:89-94 | The KV of a request in one layer: two rows per KV head for every prompt token but the last, or for the last chunk of them. |
| `ClosedLoop.ImportSecondsExactly` | scripts/exploring_hbf_native_config.py:95-96 | An import takes just as long as the KV share of a rank does at the slower of the link and the write rate. |
| `ClosedLoop.DepthExactly` | scripts/exploring_hbf_native_config.py:97-97 | The depth is one more than the fewest quarter SLOs the import fits in. |
| `ClosedLoop.PoolCoversKv` | scripts/exploring_hbf_native_config.py:78-84 | So over either medium the pool share covers every step that leaves KV to move, and the next. |
| `ClosedLoop.PoolCoversImport` | scripts/exploring_hbf_native_config.py:78-84 | At a TPOT of at least a quarter of the SLO a group frees no more slots while one import runs than its share of the pool holds. |
| `BatchBisection.Bisect` | scripts/exploring_hbf_search.py:86-93 | For any predicate: an accepted multiple of the quantum, or the unprobed zero, whose next quantum is rejected or past the ceiling; nothing is probed twice. |
| `BatchBisection.MaximumCapacityBatch` | scripts/exploring_hbf_search.py:72-106 | The RuntimeError is unreachable for every predicate, and the reported next rejected batch is the adjacent quantum when it is in range. |
| `BatchBisection.NativeCapacityBatch` | scripts/exploring_hbf_native_config.py:136-160 | A batch below the given one whose cycle peak fits and whose next quantum does not; division by zero exactly for a batch under its EP degree. |
| `BatchBisection.FitsAtExactly` | scripts/exploring_hbf_native_config.py:147-151 | A batch is tried with the pool that keeps the depth for every slot its groups free in one step. |
| `BatchBisection.PoolDepthRecovered` | scripts/exploring_hbf_native_config.py:141-145 | The depth read off a pool sized for the batch is the depth it was sized with. |
| `BatchBisection.ScreenStrategy` | scripts/exploring_hbf_search.py:186-247 | Capacity first, then the SLO under it: which of the three results, with its adjacent batches. |
| `BatchBisection.AdjacentIsGreatest` | scripts/exploring_hbf_search.py:86-96 | With a monotone predicate the result is the greatest accepted multiple of the quantum. |
| `BatchBisection.CandidateIsLargest` | scripts/exploring_hbf_search.py:193-247 | With monotone predicates the screened candidate is the largest batch that fits and meets the SLO. |
| `IntervalUnion.UnionDuration` | scripts/hbf_hbm_metrics.py:121-131 | The sweep over sorted intervals. |
| `IntervalUnion.UnionIsMeasure` | scripts/hbf_hbm_metrics.py:121-131 | The duration is the length of the union: some disjoint intervals cover exactly the same instants with that total, and every such decomposition has it. Empty and reversed intervals count nothing. |
| `IntervalUnion.UnionMonotone` | scripts/hbf_hbm_metrics.py:121-131 | Covering more never shortens the duration. |
| `IntervalUnion.UnionOrderFree` | scripts/hbf_hbm_metrics.py:121-131 | Input order does not matter. |
| `IntervalUnion.UnionOfSameSet` | scripts/hbf_hbm_metrics.py:121-131 | Only the covered instants matter. |
| `IntervalUnion.UnionInside` | scripts/hbf_hbm_metrics.py:121-131 | Intervals inside a window last at most the window. |
| `IntervalUnion.PrefetchOverlap` | scripts/hbf_hbm_metrics.py:140-162 | The overlaps of each copy and of all copies are unions of its hits, by consumer and phase. |
| `IntervalUnion.HitsCover` | scripts/hbf_hbm_metrics.py:146-154 | The hits of a copy cover exactly the instants at which it and a stage of the counted kind both run: of other requests, of other requests in a decode batch, or of its own request. |
| `IntervalUnion.AllHitsCover` | scripts/hbf_hbm_metrics.py:155-155 | The hits of all copies, the instants at which some copy does. |
| `IntervalUnion.CopyBounded` | scripts/hbf_hbm_metrics.py:156-160 | Each overlap of a copy is at most its duration, and the decode part at most the whole. |
| `IntervalUnion.DecodeWithinOperator` | scripts/hbf_hbm_metrics.py:161-162 | Decode overlap is at most operator overlap over all copies. |
| `ReadBenchmark.IssueChunks` | scripts/hbf_hbm_bandwidth_study.py:60-70 | The chunk loop issues the timeline in which each chunk waits for the slot of the one buffer_slots before it. |
| `ReadBenchmark.TimelineInOrder` | scripts/hbf_hbm_bandwidth_study.py:60-70 | For any NAND service not completing before arrival: chunks keep their order on the link, never overlap there, and arrive only once their slot is free. |
| `ReadBenchmark.StartsEarliest` | scripts/hbf_hbm_bandwidth_study.py:60-70 | Each chunk arrives when its slot frees, and takes the link at the earliest time after its NAND completion plus latency and the chunk before. |
| `ReadBenchmark.SlotsSuffice` | scripts/hbf_hbm_bandwidth_study.py:61-63 | At every instant at most buffer_slots chunks hold a slot. |
| `ReadBenchmark.Changes` | scripts/hbf_hbm_bandwidth_study.py:78-81 | The change table holds, for exactly the arrival and end times, the arrivals minus the ends. |
| `ReadBenchmark.PeakOccupancy` | scripts/hbf_hbm_bandwidth_study.py:78-85 | The sorted sweep computes exactly the greatest occupancy at any instant. |
| `ReadBenchmark.RunReadBenchmark` | scripts/hbf_hbm_bandwidth_study.py:57-85 | The report: true peak between 1 and buffer_slots, first link start and last link end attained, and at least payload over link rate within it. |
| `ReadBenchmark.LinkBusy` | scripts/hbf_hbm_bandwidth_study.py:65-70 | A serial link needs the transfer time of every chunk up to any one. |
| `JsonText.EscapeUnambiguous` | scripts/capture_physical_transactions.py:51-51 | The ASCII escape of a character, surrogate pairs included, determines it and what follows. |
| `JsonText.TextUnambiguous` | scripts/capture_physical_transactions.py:51-51 | The sorted text of a document, followed by anything that may follow a value, determines the document. |
| `JsonText.TextInjective` | scripts/capture_physical_transactions.py:51-51 | Equal sort texts mean equal documents. |
| `JsonText.EscapeExamples` | scripts/capture_physical_transactions.py:51-51 | The short escapes and the four-digit ones. |
| `JsonText.ListExamples` | scripts/capture_physical_transactions.py:51-51 | The separators and brackets of a list and a table. |
| `TextOrder.SortForgetsOrder` | scripts/capture_physical_transactions.py:51-51 | Sorting by a key forgets exactly the input order when equal keys mean equal elements. |
| `TextOrder.SortIsStable` | scripts/capture_physical_transactions.py:51-51 | Elements that share a key keep their order. |
| `ExactFacts.EqualDocumentsSame` | scripts/capture_physical_transactions.py:29-59 | exact_value is injective: equal documents come from values that are structurally equal with mapping and set order ignored. |
| `ExactValue.DocumentTags` | scripts/capture_physical_transactions.py:29-59 | The tags of a document tell the type of its value, and hold its names and scalar text. |
| `ExactFacts.SameDocuments` | scripts/capture_physical_transactions.py:29-59 | Structurally equal values have one document, when no mapping inside pairs one key with two values. |
| `ExactOrder.CanonicalExactly` | scripts/capture_physical_transactions.py:47-57 | That condition is exact: a value has one document for every mapping and set order if and only if every mapping inside gives structurally equal keys structurally equal values. |
| `ExactOrder.NanKeysKeepOrder` | scripts/capture_physical_transactions.py:47-52 | The concrete case: reordering a mapping with two NaN keys changes its document. |
| `TraceComparison.DocumentEquality` | scripts/capture_physical_transactions.py:142-142 | On recorded documents Python equality, where true equals 1, is equality. |
| `TraceComparison.CompareTraces` | scripts/capture_physical_transactions.py:135-146 | The loop over both files reports equality with the record count, or the first different or missing record with both kinds. |
| `TraceComparison.EqualTracesSame` | scripts/capture_physical_transactions.py:84-86 | Files compare equal only if they record the same observations, and for settled observations if and only if they do. |
| `Utf8.DecodablePrefix` | export-forkverse.py:85-89 | What the decoder reads is valid text; it reads everything exactly for valid UTF-8 (section 4 of RFC 3629). |
| `Utf8.EncodedIsValid` | export-forkverse.py:85-89 | Every encoding of scalar values is valid text. |
| `Utf8.ValidIsEncoded` | export-forkverse.py:85-89 | Every valid text is the encoding of some sequence of scalar values, in one to four octets of six value bits (section 3 of RFC 3629). |
| `Utf8.CutIsIncomplete` | export-forkverse.py:82-89 | Cutting valid text leaves at most one incomplete character at the end. |
| `Utf8.LimitedPatchIsLongest` | export-forkverse.py:70-92 | On valid UTF-8 the patch is the longest whole-character prefix within the limit, and truncated exactly when the output is longer. |
| `Utf8.LimitedPatchIsValid` | export-forkverse.py:70-92 | On any bytes the patch is valid, within the limit and a prefix, and anything dropped is marked truncated. |
| `Utf8.LimitedPatchExactly` | export-forkverse.py:70-92 | What is kept of any bytes: the first limit bytes when they are valid; the text before a last character that the limit cut, octets of which they begin; nothing otherwise, marked truncated. |
| `Utf8.ExportPatches` | export-forkverse.py:193-229 | Over any history each patch is cut to the budget left, and the budget stays nonnegative and equals the total minus the bytes emitted. |
| `Utf8.PatchIsLongest` | export-forkverse.py:193-229 | Each patch is the longest whole-character prefix within 16000 bytes and what is left of two MiB, marked truncated exactly when the diff is longer. |
| `GitRecords.SplitOfJoined` | export-forkverse.py:116-116 | Splitting NUL-terminated tokens returns the tokens and a final empty one. |
| `GitRecords.ParseChanges` | export-forkverse.py:115-140 | The index loop terminates on every input and computes the parse of the tokens, with each error case. |
| `GitRecords.ParseNumstat` | export-forkverse.py:143-164 | The same for numstat records, renames taking three tokens. |
| `GitRecords.ChangesRoundTrip` | export-forkverse.py:115-140 | Parsing what git prints for any change records returns them: one record for each status letter, printed with its byte; renames with both names, copies as added, type changes as modified, names with tabs intact. |
| `GitRecords.RefusedAfter` | export-forkverse.py:115-140 | After any records: every other status letter is unsupported, and a status or rename cut short and text that is not UTF-8 are refused, each with its error. |
| `GitRecords.NumstatRoundTrip` | export-forkverse.py:143-164 | Parsing printed numstat records returns their table, binary ones and renames included. |
| `GitRecords.StatRefused` | export-forkverse.py:143-164 | An entry that is no printed record: a rename without names, a name that is not UTF-8, one binary mark, or a count that is no number. |
| `GitRecords.StatWithoutFields` | export-forkverse.py:143-164 | An entry without two tabs is refused. |
| `GitRecords.DecimalRoundTrip` | export-forkverse.py:163-163 | Reading a printed count returns it. |
| `SlotPlacement.PlacePages` | scripts/hbf_hbm_budget.py:190-222 | Refuses exactly a working set above the capacity, never reaches the assertion, and otherwise returns the placement of every page. |
| `SlotPlacement.PlacedInvariant` | scripts/hbf_hbm_budget.py:205-222 | At every iteration, for both policies: slots within capacity, as many pages as placed, every page its own slot and address, HBF used only once HBM is full, equal striped slots of a tier within one page, greedy slots filled in order. |
| `SlotPlacement.NeverFull` | scripts/hbf_hbm_budget.py:190-219 | Once the capacity preflight passed some slot always has room. |
| `SlotPlacement.PlacementSound` | scripts/hbf_hbm_budget.py:190-222 | For every package and working set that fits, the placement exists and meets the invariant. |

## Left out

- Files, JSON and gzip persistence, locks, process launching and probing, clocks, publication, plots and reports: input and output.
- IEEE-754 rounding: times, rates and real batches are exact reals. TPOT bounds, GPU counts and SLOs are strictly positive.
- The NAND and DRAM cores, the serving simulator, `kv_block_peak`, `capacity_requirements` and the transfer link: their results are parameters with stated hypotheses (service delays, capacity predicates, native TPOT).
- `screen_layouts`, `search_result`, the reporting fields of a plan and of a search row, and `capacity_next_rejected`: selection of already computed fields.
- `_capacity_upper_bound` and the argument validation of the capacity search: the ceiling is a parameter.
- Scenario, preset and catalogue authoring, acceptance and study scripts: data and calls into the simulator.
- MaxBatch: makes its second pass before it reports a pruner's crash of the first one; the error observed is the same.
- PlanCase: rows are read once from a map, so the lookup cache is not modelled, and the `incumbent` label written on pruned outcomes is not part of a plan.
- Classify: takes a row whose status, reason and bounds are already decoded from its JSON.
- ScanQueue: an exception inside an iteration of `run_queue`, the wall-clock deadline of the drain and the text of the final state. The drain takes the workers that have exited by its end as a parameter.
- ScanQueueProgress: cancelled rows arrive already validated; `load_cancellations` is not part of this model.
- ParseNumstat: reads decimal digits only, where Python's `int` also takes signs, spaces and underscores that git never prints.
- LimitedPatch: the exit code and timeouts of the git process; the model starts from the bytes read.
- ExportPatches: the cut of a commit to its first changes and files; the model starts from the listed changes.
- TextInjective: strings are sequences of Unicode scalar values; a Python string with a lone surrogate, whose escape can read like another character's, has no counterpart.
- Encode: a float stands for its `float.hex` text and a type for its qualified name; a value of an unsupported type, for which the source raises an exception, has no counterpart.
- CompareTraces: takes parsed records, so that writing a document and reading it back is the identity is assumed of the JSON library.
- PrefetchOverlap: the total of premature overlaps, a plain sum of the reported rows, and the selection of stages and events from the serving record.
- PlacePages: simulated accesses, row fields and aggregate bandwidths of a budget row.
- RunReadBenchmark: byte and page counters summed from the core's results.
