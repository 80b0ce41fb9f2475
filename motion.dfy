/**
 * The motion classifier of the position stream: the speed of the latest leg
 * and the driving threshold.  The great-circle distance of a leg is an input
 * (the haversine formula is not modelled); a speed is a JavaScript number, so
 * a division by a zero elapsed time yields an infinity or NaN, not an error.
 */
module Motion {
  import opened Options
  import opened Records

  /** Above this speed a sample counts as driving. */
  const DrivingSpeedMph: real := 15.0
  /** Driven distance after which stopping while heading to a job counts as arrival. */
  const ArrivalDistanceMiles: real := 0.25
  /** Conversion factor from a device speed in metres per second to miles per hour. */
  const MphPerMetrePerSecond: real := 2.237
  const MsPerHour: real := 3600000.0

  /** A position fix; `speed` is the device-reported speed in m/s, when there is one. */
  datatype PositionSample = PositionSample(lat: real, lng: real, speed: Option<real>, timestamp: Millis)

  /** The values a JavaScript speed computation can produce. */
  datatype Mph = Finite(value: real) | PosInfinity | NegInfinity | NaN

  /** What the tracker last displayed about the location stream. */
  datatype LocationStatus = NoStatus | Driving(speed: Mph, miles: real) | NotMoving(speed: Mph) | AutoArrived

  /**
   * The speed of a leg of `distance` miles that took `elapsedMs`: the device's
   * speed converted to mph when it reported one, otherwise distance over time.
   */
  function SpeedMph(deviceSpeed: Option<real>, distance: real, elapsedMs: int): (s: Mph)
    ensures deviceSpeed.Some? ==> s == Finite(deviceSpeed.value * MphPerMetrePerSecond)
    ensures deviceSpeed.None? && elapsedMs != 0 ==>
      s.Finite? && s.value * (elapsedMs as real) == distance * MsPerHour
    ensures deviceSpeed.None? && elapsedMs == 0 ==>
      && (s == PosInfinity <==> distance > 0.0)
      && (s == NaN <==> distance == 0.0)
      && (s == NegInfinity <==> distance < 0.0)
  {
    match deviceSpeed
    case Some(v) => Finite(v * MphPerMetrePerSecond)
    case None =>
      var seconds := (elapsedMs as real) / 1000.0;
      if elapsedMs != 0 then Finite(distance / seconds * 3600.0)
      else if distance > 0.0 then PosInfinity
      else if distance < 0.0 then NegInfinity
      else NaN
  }

  /** The speed of the leg from `prev` to `cur`. */
  function LegSpeed(prev: PositionSample, cur: PositionSample, distance: real): (s: Mph)
    ensures cur.speed.Some? ==> s == Finite(cur.speed.value * MphPerMetrePerSecond)
    ensures cur.speed.None? && cur.timestamp > prev.timestamp ==>
      (IsDriving(s) <==> distance * 240000.0 > (cur.timestamp - prev.timestamp) as real)
    ensures cur.speed.None? && cur.timestamp == prev.timestamp && distance >= 0.0 ==>
      (IsDriving(s) <==> distance > 0.0)
  {
    var elapsedMs := cur.timestamp - prev.timestamp;
    if elapsedMs > 0 then
      DerivedSpeedThreshold(distance, elapsedMs);
      SpeedMph(cur.speed, distance, elapsedMs)
    else
      SpeedMph(cur.speed, distance, elapsedMs)
  }

  /** `speedMph > 15` on a JavaScript number: true of +Infinity, false of NaN. */
  predicate IsDriving(s: Mph): (driving: bool)
  {
    match s
    case Finite(v) => v > DrivingSpeedMph
    case PosInfinity => true
    case NegInfinity => false
    case NaN => false
  }

  /**
   * Without a device speed and with time elapsing forwards, a leg counts as
   * driving exactly when it covers more than a mile every 240 seconds.
   */
  lemma DerivedSpeedThreshold(distance: real, elapsedMs: int)
    requires elapsedMs > 0
    ensures IsDriving(SpeedMph(None, distance, elapsedMs)) <==> distance * 240000.0 > elapsedMs as real
  {
    var s := SpeedMph(None, distance, elapsedMs).value;
    var e := elapsedMs as real;
    assert s * e == distance * MsPerHour;
    if s > DrivingSpeedMph {
      assert s * e > DrivingSpeedMph * e;
    } else {
      assert s * e <= DrivingSpeedMph * e;
    }
  }

  /** The threshold is strict: exactly 15 mph is not driving, anything faster is. */
  lemma StrictThreshold(v: real)
    ensures !IsDriving(Finite(DrivingSpeedMph))
    ensures v > DrivingSpeedMph ==> IsDriving(Finite(v))
  {
  }

  /** A leg whose time runs backwards is never driving, whatever its (non-negative) distance. */
  lemma BackwardsLegNotDriving(distance: real, elapsedMs: int)
    requires elapsedMs < 0 && distance >= 0.0
    ensures !IsDriving(SpeedMph(None, distance, elapsedMs))
  {
  }

  /**
   * Two fixes with the same timestamp and no device speed: a positive distance
   * divides to +Infinity and counts as driving; no distance gives NaN and does not.
   */
  lemma ZeroElapsedLeg(distance: real)
    requires distance >= 0.0
    ensures IsDriving(SpeedMph(None, distance, 0)) <==> distance > 0.0
  {
  }
}
