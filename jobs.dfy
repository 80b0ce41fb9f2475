/**
 * Pure operations on job records: the record `startJob` creates, the updated
 * copies `handleArrivedOnsite` and `handleLeftSite` build, and the
 * `jobs.map(j => j.id === updated.id ? updated : j)` that writes an updated
 * copy back into the job history.
 */
module Jobs {
  import opened Options
  import opened Records

  /** The lifecycle stage a job record is in, read off its timestamps. */
  function Stage(j: Job): (s: LifecycleState)
  {
    if j.leftTime.Some? then Left
    else if j.arrivedTime.Some? then Onsite
    else Heading
  }

  /**
   * The record invariant: a job is left only after it was reached, and its
   * drive and work minutes are the rounded timestamp differences once the
   * corresponding timestamp is set, 0 before.
   */
  predicate WellFormed(j: Job)
  {
    && (j.leftTime.Some? ==> j.arrivedTime.Some?)
    && j.driveTime == Some(if j.arrivedTime.Some? then RoundMinutes(j.arrivedTime.value - j.headedTime) else 0)
    && j.workTime == Some(if j.leftTime.Some? then RoundMinutes(j.leftTime.value - j.arrivedTime.value) else 0)
  }

  /** The record `startJob` builds at time `now` from the form's details. */
  function NewJob(details: JobDetails, id: string, now: Millis): (j: Job)
    ensures WellFormed(j) && Stage(j) == Heading
    ensures j.arrivedTime.None? && j.leftTime.None?
    ensures j.driveTime == Some(0) && j.workTime == Some(0)
    ensures j.id == id && j.details == details && j.headedTime == now && j.date == DayOf(now)
  {
    Job(id, details, DayOf(now), now, None, None, Some(0), Some(0))
  }

  /** The copy of `j` that `handleArrivedOnsite` builds when arriving at time `now`. */
  function Arrive(j: Job, now: Millis): (r: Job)
    ensures r.id == j.id && r.details == j.details && r.date == j.date && r.headedTime == j.headedTime
    ensures r.arrivedTime == Some(now) && r.leftTime == j.leftTime && r.workTime == j.workTime
    ensures r.driveTime.Some? && -MsPerMinute / 2 <= (now - j.headedTime) - r.driveTime.value * MsPerMinute < MsPerMinute / 2
    ensures WellFormed(j) && Stage(j) == Heading ==> WellFormed(r) && Stage(r) == Onsite
  {
    j.(arrivedTime := Some(now), driveTime := Some(RoundMinutes(now - j.headedTime)))
  }

  /**
   * The copy of `j` that `handleLeftSite` builds when leaving at time `now`.
   * A missing arrival time reads as the epoch, as `new Date(null)` does.
   */
  function Leave(j: Job, now: Millis): (r: Job)
    ensures r.id == j.id && r.details == j.details && r.date == j.date && r.headedTime == j.headedTime
    ensures r.arrivedTime == j.arrivedTime && r.leftTime == Some(now) && r.driveTime == j.driveTime
    ensures r.workTime.Some? && -MsPerMinute / 2 <= (now - OrZero(j.arrivedTime)) - r.workTime.value * MsPerMinute < MsPerMinute / 2
    ensures WellFormed(j) && Stage(j) == Onsite ==> WellFormed(r) && Stage(r) == Left
  {
    j.(leftTime := Some(now), workTime := Some(RoundMinutes(now - OrZero(j.arrivedTime))))
  }

  /** `jobs.map(j => j.id === u.id ? u : j)`: every entry carrying u's id becomes u. */
  function ReplaceById(jobs: seq<Job>, u: Job): (r: seq<Job>)
    ensures |r| == |jobs|
    ensures forall i {:trigger r[i]} :: 0 <= i < |jobs| && jobs[i].id == u.id ==> r[i] == u
    ensures forall i {:trigger r[i]} :: 0 <= i < |jobs| && jobs[i].id != u.id ==> r[i] == jobs[i]
  {
    if jobs == [] then []
    else [if jobs[0].id == u.id then u else jobs[0]] + ReplaceById(jobs[1..], u)
  }

  /** No two entries of the history share an id. */
  predicate UniqueIds(jobs: seq<Job>)
  {
    forall i, k :: 0 <= i < k < |jobs| ==> jobs[i].id != jobs[k].id
  }

  /** Replacing by id never adds, drops or reorders entries: the id sequence is unchanged. */
  lemma ReplaceKeepsIds(jobs: seq<Job>, u: Job)
    ensures |ReplaceById(jobs, u)| == |jobs|
    ensures forall i :: 0 <= i < |jobs| ==> ReplaceById(jobs, u)[i].id == jobs[i].id
    ensures UniqueIds(jobs) ==> UniqueIds(ReplaceById(jobs, u))
  {
  }

  /** With unique ids, replacing by id changes exactly the one entry whose id matches. */
  lemma ReplaceUnique(jobs: seq<Job>, u: Job, k: nat)
    requires UniqueIds(jobs) && k < |jobs| && jobs[k].id == u.id
    ensures ReplaceById(jobs, u) == jobs[k := u]
  {
  }

  /** An id that is absent from the history leaves it as it is. */
  lemma ReplaceAbsent(jobs: seq<Job>, u: Job)
    requires forall j :: j in jobs ==> j.id != u.id
    ensures ReplaceById(jobs, u) == jobs
  {
  }

  /** Writing the same update back twice is the same as writing it once. */
  lemma ReplaceIdempotent(jobs: seq<Job>, u: Job)
    ensures ReplaceById(ReplaceById(jobs, u), u) == ReplaceById(jobs, u)
  {
  }

  /** An update of an entry of the history ends up in it. */
  lemma ReplaceContains(jobs: seq<Job>, previous: Job, u: Job)
    requires previous in jobs && previous.id == u.id
    ensures u in ReplaceById(jobs, u)
  {
  }

  /** Replacing by a well-formed record keeps every record of the history well formed. */
  lemma ReplaceWellFormed(jobs: seq<Job>, u: Job)
    requires forall j :: j in jobs ==> WellFormed(j)
    requires WellFormed(u)
    ensures forall j :: j in ReplaceById(jobs, u) ==> WellFormed(j)
  {
  }

  /**
   * Arriving with a heading job of a well-formed history and writing it back
   * keeps the history well formed and puts the arrived, onsite job in it.
   */
  lemma ArriveKeepsHistory(jobs: seq<Job>, current: Job, now: Millis)
    requires forall j :: j in jobs ==> WellFormed(j)
    requires current in jobs && Stage(current) == Heading
    ensures forall j :: j in ReplaceById(jobs, Arrive(current, now)) ==> WellFormed(j)
    ensures Arrive(current, now) in ReplaceById(jobs, Arrive(current, now))
    ensures Stage(Arrive(current, now)) == Onsite
  {
    var u := Arrive(current, now);
    assert WellFormed(current);
    ReplaceWellFormed(jobs, u);
    ReplaceContains(jobs, current, u);
  }

  /**
   * Leaving with an onsite job of a well-formed history and writing it back
   * keeps the history well formed and puts the left job in it.
   */
  lemma LeaveKeepsHistory(jobs: seq<Job>, current: Job, now: Millis)
    requires forall j :: j in jobs ==> WellFormed(j)
    requires current in jobs && Stage(current) == Onsite
    ensures forall j :: j in ReplaceById(jobs, Leave(current, now)) ==> WellFormed(j)
    ensures Leave(current, now) in ReplaceById(jobs, Leave(current, now))
    ensures Stage(Leave(current, now)) == Left
  {
    var u := Leave(current, now);
    assert WellFormed(current);
    ReplaceWellFormed(jobs, u);
    ReplaceContains(jobs, current, u);
  }
}
