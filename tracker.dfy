/**
 * The `FieldWorkTracker` component's mutable state and the handlers that
 * change it: the job lifecycle (idle -> heading -> onsite -> left -> idle)
 * and the per-sample motion classifier that can trigger arrival on its own.
 * The wall clock and the id the source takes from `Date.now()` are parameters.
 */
module Tracker {
  import opened Options
  import opened Records
  import opened Jobs
  import opened Motion

  /** What a handler hands to `saveData`: the job history, the lifecycle state and the current job. */
  datatype Snapshot = Snapshot(jobs: seq<Job>, state: LifecycleState, currentJob: Option<Job>)

  /**
   * The lifecycle invariant: a current job exists exactly when the state is
   * not idle, it is in the history and in the stage the state names, every
   * record of the history is well formed, and the driven distance is never negative.
   */
  predicate Consistent(jobs: seq<Job>, state: LifecycleState, currentJob: Option<Job>, drivingDistance: real)
  {
    && (forall j :: j in jobs ==> WellFormed(j))
    && (state == Idle <==> currentJob.None?)
    && (currentJob.Some? ==> currentJob.value in jobs && Stage(currentJob.value) == state)
    && drivingDistance >= 0.0
  }

  /** Arrival of the heading job, written back by id, keeps the invariant, with the distance reset. */
  lemma ArrivalConsistent(jobs: seq<Job>, current: Job, drivingDistance: real, now: Millis)
    requires Consistent(jobs, Heading, Some(current), drivingDistance)
    ensures Consistent(ReplaceById(jobs, Arrive(current, now)), Onsite, Some(Arrive(current, now)), 0.0)
  {
    ArriveKeepsHistory(jobs, current, now);
  }

  /** Departure of the onsite job, written back by id, keeps the invariant. */
  lemma DepartureConsistent(jobs: seq<Job>, current: Job, drivingDistance: real, now: Millis)
    requires Consistent(jobs, Onsite, Some(current), drivingDistance)
    ensures Consistent(ReplaceById(jobs, Leave(current, now)), Left, Some(Leave(current, now)), drivingDistance)
  {
    LeaveKeepsHistory(jobs, current, now);
  }

  class FieldWorkTracker {
    var currentState: LifecycleState
    var currentJob: Option<Job>
    var jobs: seq<Job>
    var drivingDistance: real
    var lastPosition: Option<PositionSample>
    var locationStatus: LocationStatus
    var autoDetectEnabled: bool
    /** The snapshot most recently handed to storage, if any. */
    var persisted: Option<Snapshot>

    /** The object invariant: its fields are `Consistent`. */
    ghost predicate Valid()
      reads this
    {
      Consistent(jobs, currentState, currentJob, drivingDistance)
    }

    /** The component's initial state, before anything is loaded from storage. */
    constructor ()
      ensures Valid()
      ensures currentState == Idle && currentJob == None && jobs == []
      ensures drivingDistance == 0.0 && lastPosition == None
      ensures locationStatus == NoStatus && persisted == None && !autoDetectEnabled
    {
      currentState := Idle;
      currentJob := None;
      jobs := [];
      drivingDistance := 0.0;
      lastPosition := None;
      locationStatus := NoStatus;
      persisted := None;
      autoDetectEnabled := false;
    }

    /**
     * The auto-detect toggle: flips auto-detection, and switching it on starts
     * the motion context afresh, with no baseline fix and no driven distance.
     */
    method ToggleAutoDetect()
      requires Valid()
      modifies this
      ensures Valid()
      ensures autoDetectEnabled == !old(autoDetectEnabled)
      ensures if autoDetectEnabled then drivingDistance == 0.0 && lastPosition == None
              else drivingDistance == old(drivingDistance) && lastPosition == old(lastPosition)
      ensures currentState == old(currentState) && currentJob == old(currentJob) && jobs == old(jobs)
      ensures locationStatus == old(locationStatus) && persisted == old(persisted)
    {
      if !autoDetectEnabled {
        drivingDistance := 0.0;
        lastPosition := None;
      }
      autoDetectEnabled := !autoDetectEnabled;
    }

    /**
     * `startJob`: append a fresh job heading out at `now` and make it current,
     * whatever the state was; the driven distance starts again from 0.
     */
    method StartJob(details: JobDetails, id: string, now: Millis)
      requires Valid()
      modifies this
      ensures Valid()
      ensures jobs == old(jobs) + [NewJob(details, id, now)]
      ensures currentJob == Some(NewJob(details, id, now)) && currentState == Heading
      ensures drivingDistance == 0.0
      ensures lastPosition == old(lastPosition) && locationStatus == old(locationStatus)
      ensures autoDetectEnabled == old(autoDetectEnabled)
      ensures persisted == Some(Snapshot(jobs, currentState, currentJob))
    {
      var newJob := NewJob(details, id, now);
      currentJob := Some(newJob);
      currentState := Heading;
      drivingDistance := 0.0;
      jobs := jobs + [newJob];
      persisted := Some(Snapshot(jobs, currentState, currentJob));
    }

    /**
     * `handleArrivedOnsite`: only with a current job that is heading; then the
     * job records its arrival at `now` and its rounded drive minutes, is written
     * back into the history by id, and the driven distance is reset.
     */
    method HandleArrivedOnsite(now: Millis)
      requires Valid()
      modifies this
      ensures Valid()
      ensures if old(currentJob).Some? && old(currentState) == Heading then
          && currentState == Onsite
          && currentJob == Some(Arrive(old(currentJob).value, now))
          && jobs == ReplaceById(old(jobs), Arrive(old(currentJob).value, now))
          && drivingDistance == 0.0
          && persisted == Some(Snapshot(jobs, currentState, currentJob))
        else
          && currentState == old(currentState) && currentJob == old(currentJob) && jobs == old(jobs)
          && drivingDistance == old(drivingDistance) && persisted == old(persisted)
      ensures |jobs| == |old(jobs)|
      ensures lastPosition == old(lastPosition) && locationStatus == old(locationStatus)
      ensures autoDetectEnabled == old(autoDetectEnabled)
    {
      if currentJob.Some? && currentState == Heading {
        var current := currentJob.value;
        ArrivalConsistent(jobs, current, drivingDistance, now);
        var updatedJob := Arrive(current, now);
        var updatedJobs := ReplaceById(jobs, updatedJob);
        currentJob, currentState, drivingDistance, jobs := Some(updatedJob), Onsite, 0.0, updatedJobs;
        persisted := Some(Snapshot(updatedJobs, Onsite, Some(updatedJob)));
      }
    }

    /**
     * `handleLeftSite`: only with a current job that is on site; then the job
     * records its departure at `now` and its rounded work minutes, and is
     * written back into the history by id.
     */
    method HandleLeftSite(now: Millis)
      requires Valid()
      modifies this
      ensures Valid()
      ensures if old(currentJob).Some? && old(currentState) == Onsite then
          && currentState == Left
          && currentJob == Some(Leave(old(currentJob).value, now))
          && jobs == ReplaceById(old(jobs), Leave(old(currentJob).value, now))
          && persisted == Some(Snapshot(jobs, currentState, currentJob))
        else
          && currentState == old(currentState) && currentJob == old(currentJob) && jobs == old(jobs)
          && persisted == old(persisted)
      ensures |jobs| == |old(jobs)|
      ensures drivingDistance == old(drivingDistance)
      ensures lastPosition == old(lastPosition) && locationStatus == old(locationStatus)
      ensures autoDetectEnabled == old(autoDetectEnabled)
    {
      if currentJob.Some? && currentState == Onsite {
        var current := currentJob.value;
        DepartureConsistent(jobs, current, drivingDistance, now);
        var updatedJob := Leave(current, now);
        var updatedJobs := ReplaceById(jobs, updatedJob);
        currentJob, currentState, jobs := Some(updatedJob), Left, updatedJobs;
        persisted := Some(Snapshot(updatedJobs, Left, Some(updatedJob)));
      }
    }

    /** `handleConcludeDay`: back to idle with no current job; the history is untouched. */
    method HandleConcludeDay()
      requires Valid()
      modifies this
      ensures Valid()
      ensures currentState == Idle && currentJob == None
      ensures jobs == old(jobs) && drivingDistance == old(drivingDistance)
      ensures lastPosition == old(lastPosition) && locationStatus == old(locationStatus)
      ensures autoDetectEnabled == old(autoDetectEnabled)
      ensures persisted == Some(Snapshot(jobs, Idle, None))
    {
      currentState := Idle;
      currentJob := None;
      persisted := Some(Snapshot(jobs, currentState, currentJob));
    }

    /**
     * `handleAnotherJob`: in both cases back to idle with no current job and
     * the history untouched; going on to another job also opens the job form,
     * whose submission is the next `StartJob`.
     */
    method HandleAnotherJob(goingToAnother: bool) returns (openJobForm: bool)
      requires Valid()
      modifies this
      ensures Valid()
      ensures openJobForm == goingToAnother
      ensures currentState == Idle && currentJob == None
      ensures jobs == old(jobs) && drivingDistance == old(drivingDistance)
      ensures lastPosition == old(lastPosition) && locationStatus == old(locationStatus)
      ensures autoDetectEnabled == old(autoDetectEnabled)
      ensures persisted == Some(Snapshot(jobs, Idle, None))
    {
      if goingToAnother {
        currentState := Idle;
        currentJob := None;
        persisted := Some(Snapshot(jobs, currentState, currentJob));
        openJobForm := true;
      } else {
        HandleConcludeDay();
        openJobForm := false;
      }
    }

    /**
     * `handleLocationUpdate` for a fix `sample` whose great-circle distance from
     * the previous fix is `distance` miles, processed at wall-clock time `now`.
     * The first fix only becomes the baseline.  After that a driving leg adds
     * its distance to the driven distance; a non-driving leg resets it to 0 and,
     * when heading to a job after more than a quarter mile of driving, arrives.
     * Fixes arrive only through the position watch, which is subscribed only
     * while auto-detection is on.
     */
    method HandleLocationUpdate(sample: PositionSample, distance: real, now: Millis)
      requires Valid()
      requires autoDetectEnabled
      requires distance >= 0.0
      modifies this
      ensures Valid()
      ensures lastPosition == Some(sample) && autoDetectEnabled == old(autoDetectEnabled)
      ensures old(lastPosition).None? ==>
        && currentState == old(currentState) && currentJob == old(currentJob) && jobs == old(jobs)
        && drivingDistance == old(drivingDistance) && locationStatus == old(locationStatus)
        && persisted == old(persisted)
      ensures old(lastPosition).Some? && IsDriving(LegSpeed(old(lastPosition).value, sample, distance)) ==>
        && drivingDistance == old(drivingDistance) + distance
        && currentState == old(currentState) && currentJob == old(currentJob) && jobs == old(jobs)
        && persisted == old(persisted)
        && locationStatus ==
             if old(currentState) == Heading && drivingDistance > ArrivalDistanceMiles
             then Driving(LegSpeed(old(lastPosition).value, sample, distance), drivingDistance)
             else old(locationStatus)
      ensures old(lastPosition).Some? && !IsDriving(LegSpeed(old(lastPosition).value, sample, distance)) ==>
        && drivingDistance == 0.0
        && if old(currentState) == Heading && old(drivingDistance) > ArrivalDistanceMiles then
             && locationStatus == AutoArrived
             && currentState == Onsite
             && currentJob == Some(Arrive(old(currentJob).value, now))
             && jobs == ReplaceById(old(jobs), currentJob.value)
             && persisted == Some(Snapshot(jobs, currentState, currentJob))
           else
             && locationStatus == NotMoving(LegSpeed(old(lastPosition).value, sample, distance))
             && currentState == old(currentState) && currentJob == old(currentJob) && jobs == old(jobs)
             && persisted == old(persisted)
    {
      if lastPosition.None? {
        lastPosition := Some(sample);
        return;
      }
      var speedMph := LegSpeed(lastPosition.value, sample, distance);
      if IsDriving(speedMph) {
        var newDistance := drivingDistance + distance;
        drivingDistance := newDistance;
        if currentState == Heading && newDistance > ArrivalDistanceMiles {
          locationStatus := Driving(speedMph, newDistance);
        }
      } else {
        if currentState == Heading && drivingDistance > ArrivalDistanceMiles {
          locationStatus := AutoArrived;
          HandleArrivedOnsite(now);
          drivingDistance := 0.0;
        } else {
          locationStatus := NotMoving(speedMph);
          drivingDistance := 0.0;
        }
      }
      lastPosition := Some(sample);
    }
  }
}
