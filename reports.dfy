/**
 * The read-only report queries: splitting minutes into hours and minutes,
 * the daily and weekly selections of jobs and expenses, and the totals over
 * a selection.  A day range is given by its first and last day; computing the
 * Sunday-to-Saturday range of an anchor date is not part of this model.
 */
module Reports {
  import opened Options
  import opened Records
  import opened Jobs

  /** The two numbers `formatTime` prints as `${hours}h ${mins}m`. */
  datatype HoursMinutes = HoursMinutes(hours: int, mins: int)

  /**
   * `formatTime`: hours by `Math.floor(minutes / 60)`, minutes by JavaScript's
   * `%`, whose remainder takes the sign of the dividend.  For a non-negative
   * count this is the exact split; a negative count that is not a whole number
   * of hours is shown one hour short.
   */
  function FormatTime(minutes: int): (r: HoursMinutes)
    ensures minutes >= 0 ==> r.hours * 60 + r.mins == minutes && 0 <= r.mins < 60
    ensures minutes < 0 ==> -60 < r.mins <= 0
    ensures minutes < 0 && r.mins == 0 ==> r.hours * 60 == minutes
    ensures minutes < 0 && r.mins != 0 ==> r.hours * 60 + r.mins == minutes - 60
  {
    HoursMinutes(minutes / 60, if minutes >= 0 then minutes % 60 else -((-minutes) % 60))
  }

  /** `Array.prototype.filter`: the elements satisfying `p`, in their original order. */
  function Filter<T>(s: seq<T>, p: T -> bool): (r: seq<T>)
    ensures |r| <= |s|
    ensures forall i :: 0 <= i < |r| ==> r[i] in s && p(r[i])
    ensures forall i :: 0 <= i < |s| && p(s[i]) ==> s[i] in r
  {
    if s == [] then []
    else (if p(s[0]) then [s[0]] else []) + Filter(s[1..], p)
  }

  /** Filtering commutes with concatenation, so it keeps the original order. */
  lemma {:induction false} FilterAppend<T>(a: seq<T>, b: seq<T>, p: T -> bool)
    ensures Filter(a + b, p) == Filter(a, p) + Filter(b, p)
  {
    if a == [] {
      assert a + b == b;
    } else {
      assert (a + b)[1..] == a[1..] + b;
      FilterAppend(a[1..], b, p);
    }
  }

  /** Each selected element is kept as often as it occurs; each other one is dropped. */
  lemma {:induction false} FilterCount<T>(s: seq<T>, p: T -> bool, x: T)
    ensures multiset(Filter(s, p))[x] == if p(x) then multiset(s)[x] else 0
  {
    if s != [] {
      assert s == [s[0]] + s[1..];
      FilterCount(s[1..], p, x);
    }
  }

  /** Two selections that agree on every element of `s` select the same sequence. */
  lemma {:induction false} FilterAgree<T>(s: seq<T>, p: T -> bool, q: T -> bool)
    requires forall x :: x in s ==> p(x) == q(x)
    ensures Filter(s, p) == Filter(s, q)
  {
    if s != [] {
      assert forall x :: x in s[1..] ==> x in s;
      FilterAgree(s[1..], p, q);
    }
  }

  /** Filtering twice is filtering once by the conjunction. */
  lemma {:induction false} FilterFilter<T>(s: seq<T>, p: T -> bool, q: T -> bool, both: T -> bool)
    requires forall x :: x in s ==> both(x) == (p(x) && q(x))
    ensures Filter(Filter(s, p), q) == Filter(s, both)
  {
    if s != [] {
      assert forall x :: x in s[1..] ==> x in s;
      FilterFilter(s[1..], p, q, both);
      FilterAppend(if p(s[0]) then [s[0]] else [], Filter(s[1..], p), q);
    }
  }

  /** The sum of `f` over `s`, the reference the folds below are checked against. */
  function Sum<T>(s: seq<T>, f: T -> int): (total: int)
  {
    if s == [] then 0 else f(s[0]) + Sum(s[1..], f)
  }

  lemma {:induction false} SumAppend<T>(a: seq<T>, b: seq<T>, f: T -> int)
    ensures Sum(a + b, f) == Sum(a, f) + Sum(b, f)
  {
    if a == [] {
      assert a + b == b;
    } else {
      assert (a + b)[1..] == a[1..] + b;
      SumAppend(a[1..], b, f);
    }
  }

  /**
   * Summing over the elements selected by either of two disjoint selections
   * is summing over each selection separately and adding.
   */
  lemma {:induction false} SumFilterSplit<T>(s: seq<T>, f: T -> int, p: T -> bool, q: T -> bool, either: T -> bool)
    requires forall x :: x in s ==> either(x) == (p(x) || q(x))
    requires forall x :: x in s ==> !(p(x) && q(x))
    ensures Sum(Filter(s, either), f) == Sum(Filter(s, p), f) + Sum(Filter(s, q), f)
  {
    if s != [] {
      assert forall x :: x in s[1..] ==> x in s;
      SumFilterSplit(s[1..], f, p, q, either);
      SumAppend(if either(s[0]) then [s[0]] else [], Filter(s[1..], either), f);
      SumAppend(if p(s[0]) then [s[0]] else [], Filter(s[1..], p), f);
      SumAppend(if q(s[0]) then [s[0]] else [], Filter(s[1..], q), f);
    }
  }

  /** `getDailyJobs`: the jobs started on `date`. */
  function DailyJobs(jobs: seq<Job>, date: Day): (r: seq<Job>)
    ensures forall j :: j in r <==> j in jobs && j.date == date
  {
    Filter(jobs, (j: Job) => j.date == date)
  }

  /** `getWeeklyJobs`: the jobs started on a day from `start` to `end`, both included. */
  function WeeklyJobs(jobs: seq<Job>, start: Day, end: Day): (r: seq<Job>)
    ensures forall j :: j in r <==> j in jobs && start <= j.date <= end
  {
    Filter(jobs, (j: Job) => start <= j.date <= end)
  }

  /** `getDailyExpenses`: the expenses recorded on `date`. */
  function DailyExpenses(expenses: seq<Expense>, date: Day): (r: seq<Expense>)
    ensures forall e :: e in r <==> e in expenses && e.date == date
  {
    Filter(expenses, (e: Expense) => e.date == date)
  }

  /** `getWeeklyExpenses`: the expenses recorded on a day from `start` to `end`, both included. */
  function WeeklyExpenses(expenses: seq<Expense>, start: Day, end: Day): (r: seq<Expense>)
    ensures forall e :: e in r <==> e in expenses && start <= e.date <= end
  {
    Filter(expenses, (e: Expense) => start <= e.date <= end)
  }

  /** A range of a single day selects exactly that day's jobs. */
  lemma WeeklyJobsOfOneDay(jobs: seq<Job>, date: Day)
    ensures WeeklyJobs(jobs, date, date) == DailyJobs(jobs, date)
  {
    FilterAgree(jobs, (j: Job) => date <= j.date <= date, (j: Job) => j.date == date);
  }

  /** The day view of a week's jobs, for a day inside that week, is that day's jobs. */
  lemma DailyJobsOfWeek(jobs: seq<Job>, start: Day, end: Day, date: Day)
    requires start <= date <= end
    ensures DailyJobs(WeeklyJobs(jobs, start, end), date) == DailyJobs(jobs, date)
  {
    FilterFilter(jobs, (j: Job) => start <= j.date <= end, (j: Job) => j.date == date, (j: Job) => j.date == date);
  }

  /** The day view of a week's expenses, for a day inside that week, is that day's expenses. */
  lemma DailyExpensesOfWeek(expenses: seq<Expense>, start: Day, end: Day, date: Day)
    requires start <= date <= end
    ensures DailyExpenses(WeeklyExpenses(expenses, start, end), date) == DailyExpenses(expenses, date)
  {
    FilterFilter(expenses, (e: Expense) => start <= e.date <= end, (e: Expense) => e.date == date, (e: Expense) => e.date == date);
  }

  /** A job appended to the history shows up last in the report of its own day and of no other. */
  lemma DailyJobsAfterAppend(jobs: seq<Job>, j: Job, date: Day)
    ensures DailyJobs(jobs + [j], date) == DailyJobs(jobs, date) + (if j.date == date then [j] else [])
  {
    FilterAppend(jobs, [j], (x: Job) => x.date == date);
  }

  /**
   * The minutes a job contributes to the totals, `job.driveTime || 0` and
   * `job.workTime || 0`: for a well-formed job, the rounded drive time once it
   * has arrived and the rounded work time once it has left, 0 before.
   */
  function DriveMinutes(j: Job): (m: int)
    ensures WellFormed(j) ==> m == if j.arrivedTime.Some? then RoundMinutes(j.arrivedTime.value - j.headedTime) else 0
  {
    OrZero(j.driveTime)
  }

  function WorkMinutes(j: Job): (m: int)
    ensures WellFormed(j) ==> m == if j.leftTime.Some? then RoundMinutes(j.leftTime.value - j.arrivedTime.value) else 0
  {
    OrZero(j.workTime)
  }

  datatype Totals = Totals(driveTime: int, workTime: int)

  /** The `reduce` step of `calculateTotals`. */
  function TotalsStep(acc: Totals, job: Job): (r: Totals)
  {
    Totals(acc.driveTime + DriveMinutes(job), acc.workTime + WorkMinutes(job))
  }

  /**
   * `jobList.reduce(step, acc)`, from the first job to the last: from any
   * starting accumulator it adds the sums of drive and work minutes.
   */
  function FoldTotals(acc: Totals, jobList: seq<Job>): (r: Totals)
    ensures r.driveTime == acc.driveTime + Sum(jobList, DriveMinutes)
    ensures r.workTime == acc.workTime + Sum(jobList, WorkMinutes)
    decreases |jobList|
  {
    if jobList == [] then acc else FoldTotals(TotalsStep(acc, jobList[0]), jobList[1..])
  }

  /** `calculateTotals`: total drive and work minutes over the list, a missing value counting as 0. */
  function CalculateTotals(jobList: seq<Job>): (t: Totals)
    ensures t.driveTime == Sum(jobList, DriveMinutes)
    ensures t.workTime == Sum(jobList, WorkMinutes)
  {
    FoldTotals(Totals(0, 0), jobList)
  }

  /** A report's totals split over a partition of the list into two halves. */
  lemma {:induction false} TotalsAppend(a: seq<Job>, b: seq<Job>)
    ensures CalculateTotals(a + b).driveTime == CalculateTotals(a).driveTime + CalculateTotals(b).driveTime
    ensures CalculateTotals(a + b).workTime == CalculateTotals(a).workTime + CalculateTotals(b).workTime
  {
    SumAppend(a, b, DriveMinutes);
    SumAppend(a, b, WorkMinutes);
  }

  /** A job with neither drive nor work minutes recorded leaves the totals as they were. */
  lemma {:induction false} MissingMinutesIgnored(jobList: seq<Job>, j: Job)
    requires j.driveTime.None? && j.workTime.None?
    ensures CalculateTotals(jobList + [j]).driveTime == CalculateTotals(jobList).driveTime
    ensures CalculateTotals(jobList + [j]).workTime == CalculateTotals(jobList).workTime
  {
    SumAppend(jobList, [j], DriveMinutes);
    SumAppend(jobList, [j], WorkMinutes);
  }

  /**
   * A range's totals are the totals of the range without its last day plus
   * that day's totals, so a week's totals are the sum of its days' totals.
   */
  lemma WeeklyTotalsByDay(jobs: seq<Job>, start: Day, end: Day)
    requires start <= end
    ensures CalculateTotals(WeeklyJobs(jobs, start, end)).driveTime ==
      CalculateTotals(WeeklyJobs(jobs, start, end - 1)).driveTime + CalculateTotals(DailyJobs(jobs, end)).driveTime
    ensures CalculateTotals(WeeklyJobs(jobs, start, end)).workTime ==
      CalculateTotals(WeeklyJobs(jobs, start, end - 1)).workTime + CalculateTotals(DailyJobs(jobs, end)).workTime
  {
    var week := (j: Job) => start <= j.date <= end;
    var before := (j: Job) => start <= j.date <= end - 1;
    var last := (j: Job) => j.date == end;
    SumFilterSplit(jobs, DriveMinutes, before, last, week);
    SumFilterSplit(jobs, WorkMinutes, before, last, week);
  }

  /** The amount an expense contributes to the total: `amount || 0`, in cents. */
  function AmountCents(e: Expense): (c: int)
  {
    OrZero(e.amountCents)
  }

  /**
   * `expenses.reduce((sum, e) => sum + amount, sum)`, from the first expense to
   * the last: it adds the sum of the amounts to its starting value.
   */
  function FoldAmounts(sum: int, expenses: seq<Expense>): (t: int)
    ensures t == sum + Sum(expenses, AmountCents)
    decreases |expenses|
  {
    if expenses == [] then sum else FoldAmounts(sum + AmountCents(expenses[0]), expenses[1..])
  }

  /** The report's expense total: the amounts of the listed expenses added up, a missing amount counting as 0. */
  function ExpenseTotal(expenses: seq<Expense>): (t: int)
    ensures t == Sum(expenses, AmountCents)
  {
    FoldAmounts(0, expenses)
  }

  /** A range's expense total is the total without its last day plus that day's total. */
  lemma WeeklyExpenseTotalByDay(expenses: seq<Expense>, start: Day, end: Day)
    requires start <= end
    ensures ExpenseTotal(WeeklyExpenses(expenses, start, end)) ==
      ExpenseTotal(WeeklyExpenses(expenses, start, end - 1)) + ExpenseTotal(DailyExpenses(expenses, end))
  {
    var week := (e: Expense) => start <= e.date <= end;
    var before := (e: Expense) => start <= e.date <= end - 1;
    var last := (e: Expense) => e.date == end;
    SumFilterSplit(expenses, AmountCents, before, last, week);
  }
}
