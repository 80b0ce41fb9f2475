/**
 * The records of the field work tracker: jobs, expenses and the lifecycle
 * state, with the clock arithmetic they are built from.  Timestamps are
 * integer milliseconds since the epoch; a calendar day (the `YYYY-MM-DD`
 * prefix of an ISO timestamp) is the number of whole UTC days since the epoch.
 */
module Records {
  import opened Options

  type Millis = int
  type Day = int

  const MsPerMinute: int := 60000
  const MsPerDay: int := 86400000

  /** The UTC calendar day of a timestamp, i.e. `toISOString().split('T')[0]`. */
  function DayOf(t: Millis): (d: Day)
    ensures d * MsPerDay <= t < (d + 1) * MsPerDay
  {
    t / MsPerDay
  }

  /**
   * `Math.round(ms / 1000 / 60)`: whole minutes, halves rounded upwards.
   * The result is the unique m with m - 1/2 <= ms/60000 < m + 1/2.
   */
  function RoundMinutes(ms: int): (m: int)
    ensures -MsPerMinute / 2 <= ms - m * MsPerMinute < MsPerMinute / 2
  {
    (ms + MsPerMinute / 2) / MsPerMinute
  }

  /** The rounding postcondition pins the result down: no other whole number satisfies it. */
  lemma RoundMinutesUnique(ms: int, m: int)
    requires -MsPerMinute / 2 <= ms - m * MsPerMinute < MsPerMinute / 2
    ensures m == RoundMinutes(ms)
  {
  }

  /** The fields the job-start form collects (`JobFormModal`). */
  datatype JobDetails = JobDetails(
    customerName: string,
    contact: string,
    facility: string,
    workScope: string,
    tasksCompleted: string)

  /** One site visit; `driveTime` and `workTime` are whole minutes and may be missing in stored data. */
  datatype Job = Job(
    id: string,
    details: JobDetails,
    date: Day,
    headedTime: Millis,
    arrivedTime: Option<Millis>,
    leftTime: Option<Millis>,
    driveTime: Option<int>,
    workTime: Option<int>)

  datatype Category = Fuel | Meals | Tolls | Materials | Other

  /** An expense; the amount is in integer cents and may be missing (an empty form field). */
  datatype Expense = Expense(
    id: string,
    description: string,
    amountCents: Option<int>,
    category: Category,
    receipt: Option<string>,
    receiptName: string,
    date: Day)

  datatype LifecycleState = Idle | Heading | Onsite | Left
}
