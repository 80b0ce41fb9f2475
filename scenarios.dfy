/**
 * Whole-day runs of the tracker, proved from the handlers' contracts alone:
 * what a caller of the component can rely on.
 */
module Scenarios {
  import opened Options
  import opened Records
  import opened Jobs
  import opened Motion
  import opened Tracker

  /**
   * Start a job at `headed`, arrive at `arrived`, leave at `left`, then decline
   * another job: the tracker is idle with no current job and holds exactly one
   * job, left, with the rounded drive and work minutes.
   */
  method OneJobDay(details: JobDetails, id: string, headed: Millis, arrived: Millis, left: Millis)
    returns (t: FieldWorkTracker)
    ensures t.currentState == Idle && t.currentJob == None
    ensures |t.jobs| == 1 && Stage(t.jobs[0]) == Left
    ensures t.jobs[0].driveTime == Some(RoundMinutes(arrived - headed))
    ensures t.jobs[0].workTime == Some(RoundMinutes(left - arrived))
  {
    t := new FieldWorkTracker();
    t.StartJob(details, id, headed);
    t.HandleArrivedOnsite(arrived);
    t.HandleLeftSite(left);
    var openJobForm := t.HandleAnotherJob(false);
  }

  /**
   * Start a job, take a baseline fix, drive one leg of `miles` at a device
   * speed of 10 m/s, then stop: the job is reached automatically exactly when
   * the leg was longer than a quarter mile, and the driven distance is 0 either way.
   */
  method DriveThenStop(details: JobDetails, id: string, headed: Millis, miles: real, stopped: Millis)
    returns (t: FieldWorkTracker)
    requires miles >= 0.0
    ensures t.currentState == (if miles > ArrivalDistanceMiles then Onsite else Heading)
    ensures t.drivingDistance == 0.0 && |t.jobs| == 1
    ensures t.locationStatus == if miles > ArrivalDistanceMiles then AutoArrived else NotMoving(Finite(0.0))
    ensures miles > ArrivalDistanceMiles ==> t.jobs[0].arrivedTime == Some(stopped)
  {
    t := new FieldWorkTracker();
    t.ToggleAutoDetect();
    t.StartJob(details, id, headed);
    // The leg distances below are the great-circle distances between the fixes,
    // which the model takes as given; the coordinates only label the fixes.
    t.HandleLocationUpdate(PositionSample(40.0, -75.0, None, headed), 0.0, headed);
    t.HandleLocationUpdate(PositionSample(40.004, -75.0, Some(10.0), headed + 60000), miles, headed + 60000);
    assert t.drivingDistance == miles;
    t.HandleLocationUpdate(PositionSample(40.004, -75.0, Some(0.0), stopped), 0.0, stopped);
  }
}
