# Field work tracker — a Dafny model of its core

The field work tracker is a single React component, `FieldWorkTracker`, that follows a field worker's
day. A job is started when the worker heads to a site. It is reached either by a button or
automatically from the GPS stream. It is left when the work is done, and then the day either goes on
with another job or ends. Daily and weekly reports sum the drive and work minutes of the jobs and the
amounts of the expenses.

This project models the three pieces of logic inside the component:

- **Job lifecycle** (`tracker.dfy`, `jobs.dfy`). The class `Tracker.FieldWorkTracker` has the fields
  the component keeps in React state: `currentState` (idle, heading, onsite, left), `currentJob`,
  the job history `jobs`, `drivingDistance`, `lastPosition`, `locationStatus` and
  `autoDetectEnabled`. It also has a `persisted` field holding the last snapshot handed to
  storage. Each handler is a method whose `ensures` gives the whole new state in terms of the old one. `Valid()` is the invariant every
  handler keeps (the predicate `Tracker.Consistent` over those fields):
  - a current job exists exactly when the state is not idle;
  - the current job is in the history, in the stage the state names;
  - every job record is well formed: its drive and work minutes are the rounded timestamp differences;
  - the driven distance is never negative.

  The pure record operations (`NewJob`, `Arrive`, `Leave`, and `ReplaceById` for the
  `jobs.map(...)` write-back by id) are functions in `Jobs`, each with lemmas.
- **Motion classifier** (`motion.dfy` and `HandleLocationUpdate`). A fix becomes a baseline, a
  driving leg (more than 15 mph), or a stop. A stop can trigger auto-arrival: this happens when the
  state is heading and more than 0.25 miles were driven. Speeds are JavaScript numbers
  (`Motion.Mph`), so the infinities and NaN produced by a zero elapsed time are part of the model.
- **Report queries** (`reports.dfy`). `formatTime`, the daily and weekly filters on jobs and
  expenses, and the `reduce` folds for the totals. Each fold is proved equal to an independent sum.

`scenarios.dfy` holds two client runs proved from the handlers' contracts alone. The first is a
complete one-job day. The second is a drive-then-stop run that auto-arrives exactly when the leg
exceeded a quarter mile.

Representation choices:
- Time is integer milliseconds, passed to each handler as `now`.
- A calendar date (`YYYY-MM-DD` of an ISO timestamp) is the number of whole UTC days since the epoch.
  Comparing day numbers gives the same order as comparing the fixed-width date strings.
- `Math.round(ms / 60000)` is `(ms + 30000) / 60000` on integers. With integer millisecond
  differences this is exact.
- Expense amounts are integer cents.

### Behaviour of the code worth knowing

- `startJob` has no guard in the code. It appends and makes the new job current in any state; only
  the UI restricts its button to the idle state. `StartJob` is modelled unguarded. `Valid()` still
  holds, because the replaced job stays in the history.
- `handleAnotherJob(true)` only returns to idle and opens the job form. The heading state comes
  later, from the form's `startJob`. `HandleAnotherJob` returns `openJobForm` for this.
- Derived speed with zero elapsed time has no guard in the code. A positive distance divides to
  `Infinity` and counts as driving. A zero distance gives `NaN` and does not.
  `Motion.ZeroElapsedLeg` states this.
- `handleLeftSite` reads a missing arrival time as `new Date(null)`, the epoch. `Jobs.Leave` does
  the same. Under `Valid()` it cannot occur.
- The auto-detect toggle resets the driven distance and the baseline fix when it switches
  auto-detection on, not when it switches it off (time-tracker.jsx:335-340). `ToggleAutoDetect`
  models this.
- Persistence is fire-and-forget. `saveData` catches and logs a failed write after the in-memory
  state has changed; no rollback happens.
- Adding an expense saves `saveData(null, updatedExpenses, null, null)` (time-tracker.jsx:256).
  Because `null !== undefined`, lines 155-156 then store a null state and a null current job, so
  a reload in the middle of a job comes back idle (lines 144-145). `addExpense` is not part of
  this model; the handlers' `persisted` snapshots are.

## Model

| member | source | states |
|---|---|---|
| Records.DayOf | time-tracker.jsx:177 | the job's date is the UTC day containing the timestamp: `d*86400000 <= t < (d+1)*86400000` |
| Records.RoundMinutes | time-tracker.jsx:192-197 | `Math.round(ms/60000)`: the whole m with `-30000 <= ms - 60000*m < 30000` (halves round up) |
| Records.RoundMinutesUnique | time-tracker.jsx:197 | that rounding condition determines the minutes uniquely |
| Jobs.NewJob | time-tracker.jsx:169-178 | the new job is well formed and heading: arrival and departure unset, 0 drive and 0 work minutes, headed now, dated today |
| Jobs.Arrive | time-tracker.jsx:191-198 | arrival is recorded at now and drive minutes are the rounded time since heading out; a well-formed heading job becomes a well-formed onsite job; the id and other fields are kept |
| Jobs.Leave | time-tracker.jsx:212-219 | departure is recorded at now and work minutes are the rounded time since arrival; a well-formed onsite job becomes a well-formed left job; the id and other fields are kept |
| Jobs.ReplaceById | time-tracker.jsx:204 | the write-back keeps the length; every entry with the update's id becomes the update; every other entry is unchanged |
| Jobs.ReplaceKeepsIds | time-tracker.jsx:224 | the write-back never adds, drops or reorders entries: same length, every position keeps its id, and unique ids stay unique |
| Jobs.ReplaceUnique | time-tracker.jsx:204 | with unique ids exactly one entry changes: the result is the history with position k set to the update |
| Jobs.ReplaceAbsent | time-tracker.jsx:204 | an update whose id is not in the history leaves it unchanged |
| Jobs.ReplaceIdempotent | time-tracker.jsx:204 | writing the same update back twice equals writing it once |
| Jobs.ReplaceContains | time-tracker.jsx:204 | an update of an entry in the history is in the result |
| Jobs.ReplaceWellFormed | time-tracker.jsx:204 | writing back a well-formed update keeps every record of the history well formed |
| Jobs.ArriveKeepsHistory | time-tracker.jsx:194-204 | arriving with a heading job of a well-formed history and writing it back keeps every record well formed and puts the onsite job in the history |
| Jobs.LeaveKeepsHistory | time-tracker.jsx:215-224 | leaving with an onsite job of a well-formed history and writing it back keeps every record well formed and puts the left job in the history |
| Motion.SpeedMph | time-tracker.jsx:86-89 | a device speed gives `speed*2.237`; otherwise with elapsed time, `speed * elapsed == distance * 3600000`; with zero elapsed, +Infinity, NaN or -Infinity by the sign of the distance |
| Motion.LegSpeed | time-tracker.jsx:86-89 | the speed of the leg between two fixes: the device speed in mph when reported; otherwise, for positive elapsed time, driving exactly when `distance*240000 > elapsed`, and for equal timestamps driving exactly when the distance is positive |
| Motion.IsDriving | time-tracker.jsx:92 | `speedMph > 15` on a JavaScript number: finite speeds above 15 and +Infinity are driving, NaN and -Infinity are not (definition; no contract of its own) |
| Motion.StrictThreshold | time-tracker.jsx:92 | the threshold is strict: exactly 15 mph is not driving, any faster finite speed is |
| Motion.DerivedSpeedThreshold | time-tracker.jsx:86-92 | without a device speed and with positive elapsed time, a leg is driving exactly when `distance*240000 > elapsedMs` (faster than 15 mph) |
| Motion.BackwardsLegNotDriving | time-tracker.jsx:86-92 | a leg whose timestamps run backwards never counts as driving |
| Motion.ZeroElapsedLeg | time-tracker.jsx:86-92 | two fixes with equal timestamps and no device speed count as driving exactly when the distance is positive |
| Tracker.FieldWorkTracker.constructor | time-tracker.jsx:5-17 | the initial state: idle, no current job, empty history, 0 driven distance, no baseline fix, no status, nothing saved; it is valid |
| Tracker.ArrivalConsistent | time-tracker.jsx:194-204 | arrival of the heading job, written back by id, with the distance reset, leaves the tracker's fields consistent in the onsite state |
| Tracker.DepartureConsistent | time-tracker.jsx:215-224 | departure of the onsite job, written back by id, leaves the tracker's fields consistent in the left state |
| Tracker.FieldWorkTracker.ToggleAutoDetect | time-tracker.jsx:335-340 | flips auto-detection; switching it on clears the driven distance and the baseline fix, switching it off keeps them; nothing else changes |
| Tracker.FieldWorkTracker.StartJob | time-tracker.jsx:168-187 | exactly one new heading job is appended (existing jobs kept in order) and made current; the state is heading, the driven distance 0, the new state saved, the invariant kept |
| Tracker.FieldWorkTracker.HandleArrivedOnsite | time-tracker.jsx:189-208 | nothing changes unless a current job is heading. Otherwise the state becomes onsite, the job gets arrival and drive minutes and is written back by id (same length), the driven distance is reset, and the snapshot is saved |
| Tracker.FieldWorkTracker.HandleLeftSite | time-tracker.jsx:210-228 | nothing changes unless a current job is onsite. Otherwise the state becomes left, the job gets departure and work minutes and is written back by id (same length), and the snapshot is saved |
| Tracker.FieldWorkTracker.HandleConcludeDay | time-tracker.jsx:241-245 | idle with no current job; the history and the driven distance are untouched; the idle state is saved |
| Tracker.FieldWorkTracker.HandleAnotherJob | time-tracker.jsx:230-239 | either way the result is idle with no current job and an untouched history, saved; the job form opens exactly when going on to another job |
| Tracker.FieldWorkTracker.HandleLocationUpdate | time-tracker.jsx:64-114 | called only while auto-detection is on; a first fix only sets the baseline; a driving leg adds its distance and keeps the lifecycle; a stop resets the distance to 0 and arrives exactly when heading after more than 0.25 miles; the status is stated in every case |
| Reports.FormatTime | time-tracker.jsx:260-264 | for `m >= 0`: `h*60 + mins == m` and `0 <= mins < 60`; for negative m the remainder lies in (-60, 0] and the split is one hour short unless m is whole hours |
| Reports.Filter | time-tracker.jsx:282-298 | `filter`: no longer than the input; results are exactly the input elements that satisfy the predicate |
| Reports.FilterAppend | time-tracker.jsx:282-298 | filtering commutes with concatenation, so original order is kept |
| Reports.FilterCount | time-tracker.jsx:282-298 | each selected element keeps its multiplicity; unselected ones occur 0 times |
| Reports.FilterAgree | time-tracker.jsx:282-298 | predicates that agree on the input select the same sequence |
| Reports.FilterFilter | time-tracker.jsx:282-298 | filtering twice is filtering once by the conjunction |
| Reports.SumAppend | time-tracker.jsx:300-305 | a sum over a concatenation is the sum of the two sums |
| Reports.SumFilterSplit | time-tracker.jsx:300-305 | the sum over the union of two disjoint selections is the sum of the two selections' sums |
| Reports.DailyJobs | time-tracker.jsx:282-284 | exactly the jobs whose date equals the day |
| Reports.WeeklyJobs | time-tracker.jsx:286-289 | exactly the jobs whose date lies in `[start, end]`, inclusive |
| Reports.DailyExpenses | time-tracker.jsx:291-293 | exactly the expenses whose date equals the day |
| Reports.WeeklyExpenses | time-tracker.jsx:295-298 | exactly the expenses whose date lies in `[start, end]`, inclusive |
| Reports.WeeklyJobsOfOneDay | time-tracker.jsx:286-289 | a one-day range selects the same sequence as the daily query |
| Reports.DailyJobsOfWeek | time-tracker.jsx:282-289 | for a day inside a range, the daily view of the range's jobs is that day's jobs |
| Reports.DailyExpensesOfWeek | time-tracker.jsx:291-298 | for a day inside a range, the daily view of the range's expenses is that day's expenses |
| Reports.DailyJobsAfterAppend | time-tracker.jsx:282-284 | a job appended to the history appears last in its own day's report and in no other day's |
| Reports.DriveMinutes | time-tracker.jsx:302 | `job.driveTime \|\| 0`: for a well-formed job, the rounded drive minutes once it has arrived, 0 before |
| Reports.WorkMinutes | time-tracker.jsx:303 | `job.workTime \|\| 0`: for a well-formed job, the rounded work minutes once it has left, 0 before |
| Reports.TotalsStep | time-tracker.jsx:301-304 | the `reduce` step: adds one job's drive and work minutes to the accumulator (definition; its effect is stated by `FoldTotals`) |
| Reports.FoldTotals | time-tracker.jsx:301-304 | the left-to-right `reduce` adds the sums of drive and work minutes over the list to any starting accumulator |
| Reports.CalculateTotals | time-tracker.jsx:300-305 | the totals are the sums of drive and work minutes over the list, a missing value counting as 0 |
| Reports.TotalsAppend | time-tracker.jsx:300-305 | drive and work totals over a concatenation are the two lists' totals added |
| Reports.MissingMinutesIgnored | time-tracker.jsx:302-303 | a job with neither drive nor work minutes recorded leaves both totals as they were |
| Reports.WeeklyTotalsByDay | time-tracker.jsx:286-305 | a range's drive and work totals are its totals without the last day plus that day's totals |
| Reports.AmountCents | time-tracker.jsx:708 | `e.amount \|\| 0` in integer cents (definition; summed by `FoldAmounts`) |
| Reports.FoldAmounts | time-tracker.jsx:708 | the left-to-right expense `reduce` adds the sum of the amounts to its starting value |
| Reports.ExpenseTotal | time-tracker.jsx:708 | the expense total is the sum of the amounts, a missing amount counting as 0 |
| Reports.WeeklyExpenseTotalByDay | time-tracker.jsx:295-298 | a range's expense total is its total without the last day plus that day's total |
| Scenarios.OneJobDay | time-tracker.jsx:168-245 | start, arrive, leave, then decline another job: idle with no current job and exactly one left job carrying the rounded drive and work minutes |
| Scenarios.DriveThenStop | time-tracker.jsx:64-114 | a heading job that drives one leg and then stops auto-arrives exactly when the leg exceeded 0.25 miles; the driven distance is then 0 |

`HandleLocationUpdate` states the following:
- The first fix only becomes the baseline; nothing else changes.
- Every later fix becomes the last position.
- A driving leg adds its distance to the driven distance and leaves the lifecycle, the history and
  the saved snapshot unchanged.
- A non-driving leg resets the driven distance to 0.
- It arrives (state onsite, job written back by id and saved) exactly when the state was heading and
  the prior driven distance exceeded 0.25 miles.
- The status it shows is stated in every case.

## Left out

- The geolocation subscription (time-tracker.jsx:26-62): subscribing, unsubscribing, the
  'Requesting location access...' status shown when auto-detection is switched on, the
  'Tracking location' status it sets before each fix, and the error statuses. Fixes arrive as
  calls to `HandleLocationUpdate`, which requires auto-detection to be on, as the subscription
  guarantees.
- The haversine distance and `toRad` (time-tracker.jsx:116-131). These are floating-point
  trigonometry, so the leg distance is a parameter. `HandleLocationUpdate` requires it to be
  non-negative, which the haversine result always is.
- Floating-point rounding in general. Speeds and distances are exact reals. The rounding of
  JavaScript doubles in the m/s conversion, the derived speed and the distance accumulator is not
  modelled.
- `loadData` and the storage writes of `saveData` (time-tracker.jsx:133-162). These are async I/O
  through a foreign API, including JSON serialisation and write failures. The `persisted` field records only the
  snapshot a handler hands to storage.
- `getDateRange` (time-tracker.jsx:272-280). It depends on JavaScript `Date` and time-zone
  behaviour; the weekly queries take the first and last day of the range as parameters.
- `formatDateTime`. It is locale formatting.
- Expense amounts that `parseFloat` cannot read (time-tracker.jsx:708). They produce NaN; amounts
  here are integer cents or missing.
- Reports.FormatTime: yields the hours and minutes it prints, not the text `"Xh Ym"`.
- `addExpense` and the form modals (time-tracker.jsx:247-258, 307-835). These are UI and not part
  of the modelled core; the expense history enters the reports as a sequence parameter.
- React's render-time closures. A handler in the component sees the state of the last render,
  while the model's handlers see the current fields, serialised one call after another.
- Job ids and clocks. `Date.now()` ids and `new Date()` times are parameters. Uniqueness of ids is
  not enforced, as in the source; `Jobs.ReplaceUnique` states what holds when they are unique.
- A device speed that is `undefined` rather than `null`. In the code it would give NaN (not
  driving); `None` here stands only for `null`.
