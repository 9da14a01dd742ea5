/**
 * The health tracker (src/c/health.c): on each update it notes whether
 * the user is asleep, when sleep was last seen, and today's sums of the
 * health metrics; the sidebar reads them back. The health service's
 * answers and the clock are inputs.
 */
module Health {

  /** Sleep is still shown for half an hour after waking up. */
  const SECONDS_AFTER_WAKE_UP: int := 1800

  // Bits of the activity mask and of a metric's accessibility mask.
  const ACTIVITY_SLEEP_BIT: nat := 0
  const ACTIVITY_RESTFUL_SLEEP_BIT: nat := 1
  const ACCESSIBLE_AVAILABLE_BIT: nat := 0

  /** Bit `i` of a mask. */
  predicate Bit(mask: nat, i: nat)
  {
    (mask / Pow2(i)) % 2 == 1
  }

  function Pow2(i: nat): (p: nat)
    ensures p >= 1
  {
    if i == 0 then 1 else 2 * Pow2(i - 1)
  }

  /** What the health service says about one metric: its accessibility mask and today's sum. */
  datatype Reading = Reading(accessMask: nat, sumToday: int)

  /** The service's answers for the six metrics the tracker keeps. */
  datatype Readings = Readings(sleep: Reading, restfulSleep: Reading, walkedDistance: Reading,
                               steps: Reading, activeSeconds: Reading, activeKCalories: Reading)

  /** Today's sum of a metric, or 0 when the service does not make it available. */
  function SumToday(r: Reading): (v: int)
    ensures !Bit(r.accessMask, ACCESSIBLE_AVAILABLE_BIT) ==> v == 0
    ensures Bit(r.accessMask, ACCESSIBLE_AVAILABLE_BIT) ==> v == r.sumToday
  {
    if Bit(r.accessMask, ACCESSIBLE_AVAILABLE_BIT) then r.sumToday else 0
  }

  /** Everything the tracker keeps. */
  datatype HealthState = HealthState(
    sleeping: bool,
    restfulSleeping: bool,
    endSleepTime: int,
    sleepSeconds: int,
    restfulSleepSeconds: int,
    distanceWalked: int,
    steps: int,
    activeSeconds: int,
    activeKCalories: int)

  /**
   * The state after an update at time `now` with the current activity mask:
   * asleep when either sleep bit is set, restful only with its own bit, the
   * end of sleep moved to `now` only while asleep, and every metric re-read.
   */
  function Updated(h: HealthState, activities: nat, now: int, readings: Readings): (r: HealthState)
    ensures r.sleeping <==> Bit(activities, ACTIVITY_SLEEP_BIT) || Bit(activities, ACTIVITY_RESTFUL_SLEEP_BIT)
    ensures r.restfulSleeping <==> Bit(activities, ACTIVITY_RESTFUL_SLEEP_BIT)
    ensures r.restfulSleeping ==> r.sleeping
    ensures r.endSleepTime == if r.sleeping then now else h.endSleepTime
  {
    var sleeping := Bit(activities, ACTIVITY_SLEEP_BIT) || Bit(activities, ACTIVITY_RESTFUL_SLEEP_BIT);
    HealthState(
      sleeping,
      Bit(activities, ACTIVITY_RESTFUL_SLEEP_BIT),
      if sleeping then now else h.endSleepTime,
      SumToday(readings.sleep),
      SumToday(readings.restfulSleep),
      SumToday(readings.walkedDistance),
      SumToday(readings.steps),
      SumToday(readings.activeSeconds),
      SumToday(readings.activeKCalories))
  }

  /** Whether the sleep figures should be shown at time `now`. */
  predicate SleepShown(h: HealthState, now: int)
  {
    h.sleeping || h.endSleepTime + SECONDS_AFTER_WAKE_UP > now
  }

  /**
   * Every figure the getters return comes from the last update alone:
   * two trackers updated with the same answers agree on everything but the
   * end of sleep, and on that too when the user is asleep.
   */
  lemma LastUpdateWins(h1: HealthState, h2: HealthState, activities: nat, now: int, readings: Readings)
    ensures var a, b := Updated(h1, activities, now, readings), Updated(h2, activities, now, readings);
      a.(endSleepTime := b.endSleepTime) == b && (a.sleeping ==> a == b)
  {
  }

  /**
   * Sleep stays on display for exactly half an hour after the last update
   * that saw the user asleep, however many waking updates follow.
   */
  lemma ShownHalfHourAfterWaking(h: HealthState, asleep: nat, t: int, r1: Readings,
                                 awake: nat, t2: int, r2: Readings, now: int)
    requires Bit(asleep, ACTIVITY_SLEEP_BIT)
    requires !Bit(awake, ACTIVITY_SLEEP_BIT) && !Bit(awake, ACTIVITY_RESTFUL_SLEEP_BIT)
    ensures SleepShown(Updated(Updated(h, asleep, t, r1), awake, t2, r2), now) <==> now < t + SECONDS_AFTER_WAKE_UP
  {
  }

  /** The tracker's fields (the module's static variables). */
  class HealthTracker {
    var sleeping: bool
    var restfulSleeping: bool
    var endSleepTime: int
    var sleepSeconds: int
    var restfulSleepSeconds: int
    var distanceWalked: int
    var steps: int
    var activeSeconds: int
    var activeKCalories: int

    function State(): HealthState
      reads this
    {
      HealthState(sleeping, restfulSleeping, endSleepTime, sleepSeconds, restfulSleepSeconds,
                  distanceWalked, steps, activeSeconds, activeKCalories)
    }

    /** Static storage starts zeroed. */
    constructor()
      ensures State() == HealthState(false, false, 0, 0, 0, 0, 0, 0, 0)
    {
      sleeping, restfulSleeping, endSleepTime := false, false, 0;
      sleepSeconds, restfulSleepSeconds, distanceWalked := 0, 0, 0;
      steps, activeSeconds, activeKCalories := 0, 0, 0;
    }

    /** Reads the current activities and today's metrics; `now` is the clock at the time of the call. */
    method Update(activities: nat, now: int, readings: Readings)
      modifies this
      ensures State() == Updated(old(State()), activities, now, readings)
    {
      sleeping := Bit(activities, ACTIVITY_SLEEP_BIT) || Bit(activities, ACTIVITY_RESTFUL_SLEEP_BIT);
      restfulSleeping := Bit(activities, ACTIVITY_RESTFUL_SLEEP_BIT);
      sleepSeconds := SumToday(readings.sleep);
      restfulSleepSeconds := SumToday(readings.restfulSleep);
      if sleeping {
        endSleepTime := now;
      }
      distanceWalked := SumToday(readings.walkedDistance);
      steps := SumToday(readings.steps);
      activeSeconds := SumToday(readings.activeSeconds);
      activeKCalories := SumToday(readings.activeKCalories);
    }

    /** Whether the sleep figures are shown at time `now`. */
    method SleepingToBeDisplayed(now: int) returns (shown: bool)
      ensures shown <==> SleepShown(State(), now)
      ensures sleeping ==> shown
    {
      shown := sleeping || endSleepTime + SECONDS_AFTER_WAKE_UP > now;
    }
  }
}
