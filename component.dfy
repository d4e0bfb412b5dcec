/**
 * The `s-swipe` component object. Its fields are the component's properties and
 * session fields, updated in place by the handlers; `live` and `nextHandle`
 * stand for the host's interval table. Each method is specified by the
 * functions of `Gesture` and `Settings`, whose properties are proved there.
 */
module Component {
  import opened Wrappers
  import opened Direction
  import Settings
  import Gesture

  class SSwipe {
    var timeThreshold: int
    var thresholdX: int
    var thresholdY: int

    var startX: Option<int>
    var startY: Option<int>
    var endX: Option<int>
    var endY: Option<int>
    var time: Option<nat>
    var totalTime: int

    var live: set<nat>
    var nextHandle: nat

    /** The current property values. */
    function Configuration(): Settings.Config
      reads this
    {
      Settings.Config(timeThreshold, thresholdX, thresholdY)
    }

    /** The current session fields, as a value. */
    function Snapshot(): Gesture.Session
      reads this
    {
      Gesture.Session(startX, startY, endX, endY, time, totalTime, live, nextHandle)
    }

    predicate Valid()
      reads this
    {
      Gesture.Valid(Snapshot())
    }

    /** A new component: default properties, `totalTime` 0, nothing else set and no interval. */
    constructor ()
      ensures Valid()
      ensures Configuration() == Settings.Default
      ensures Snapshot() == Gesture.Initial
    {
      timeThreshold, thresholdX, thresholdY := 100, 30, 30;
      startX, startY, endX, endY := None, None, None, None;
      time := None;
      totalTime := 0;
      live := {};
      nextHandle := Gesture.FirstHandle;
    }

    /** Assigning a property runs its watcher; a rejected value is not stored. */
    method Update(setting: Settings.Setting, newValue: Option<int>) returns (r: Outcome<Settings.ConfigError>)
      modifies this
      ensures r.Fail? <==> newValue.None?
      ensures match Settings.Set(old(Configuration()), setting, newValue)
              case Success(c) => r.Pass? && Configuration() == c
              case Failure(e) => r == Fail(e) && Configuration() == old(Configuration())
      ensures Snapshot() == old(Snapshot())
    {
      var checked := Settings.Validate(setting, newValue);
      if checked.Failure? {
        return Fail(checked.error);
      }
      match setting {
        case TimeThreshold => timeThreshold := checked.value;
        case ThresholdX => thresholdX := checked.value;
        case ThresholdY => thresholdY := checked.value;
      }
      r := Pass;
    }

    /** `handleTouchStart`: store the start point and arm a new interval. */
    method TouchStart(x: int, y: int)
      requires Valid()
      modifies this
      ensures Valid()
      ensures Snapshot() == Gesture.TouchStart(old(Snapshot()), x, y)
      ensures Configuration() == old(Configuration())
    {
      startX := Some(x);
      startY := Some(y);
      var handle := nextHandle;
      nextHandle := nextHandle + 1;
      live := live + {handle};
      time := Some(handle);
    }

    /** The interval callback, run when the running interval `handle` fires. */
    method Tick(handle: nat)
      requires Valid() && handle in live
      modifies this
      ensures Valid()
      ensures Snapshot() == Gesture.Tick(old(Snapshot()), handle)
      ensures Configuration() == old(Configuration())
    {
      totalTime := totalTime + Gesture.TickMillis;
    }

    /** `handleTouchEnd`: returns the event it emits, if any. */
    method TouchEnd(x: int, y: int) returns (emitted: Option<SwipeEvent>)
      requires Valid()
      modifies this
      ensures Valid()
      ensures Gesture.Reaction(Snapshot(), emitted)
           == Gesture.TouchEnd(old(Configuration()), old(Snapshot()), x, y)
      ensures Configuration() == old(Configuration())
    {
      endX := Some(x);
      endY := Some(y);
      if time.Some? {
        live := live - {time.value};
      }
      if totalTime >= timeThreshold {
        if startX.Some? && startY.Some? {
          emitted := Some(CalculateSwipeDirection(startX.value, startY.value, endX.value, endY.value,
                                                  Gesture.SwipeThresholdX, Gesture.SwipeThresholdY));
        } else {
          emitted := Some(NoSwipe);
        }
      } else {
        emitted := None;
      }
      totalTime := 0;
    }
  }

  /**
   * A client: a missing value is rejected, and a gesture that lasts one tick
   * after the time threshold is lowered to 10 is classified with the literal
   * 30/30 although `thresholdX` was raised to 1000.
   */
  method IgnoredThresholdClient() returns (rejected: Outcome<Settings.ConfigError>, emitted: Option<SwipeEvent>)
    ensures rejected == Fail(Settings.InvalidConfiguration("Invalid threshold X"))
    ensures emitted == Some(NoSwipe.(left := true))
  {
    var c := new SSwipe();
    rejected := c.Update(Settings.ThresholdX, None);
    var accepted := c.Update(Settings.ThresholdX, Some(1000));
    accepted := c.Update(Settings.TimeThreshold, Some(10));
    assert c.Configuration() == Settings.Config(10, 1000, 30);
    c.TouchStart(100, 100);
    c.Tick(c.time.value);
    emitted := c.TouchEnd(50, 100);
  }

  /** A client: after two touch starts and one touch end, the first interval still runs. */
  method DoubleStartClient() returns (leaked: bool)
    ensures leaked
  {
    var c := new SSwipe();
    c.TouchStart(100, 100);
    var first := c.time.value;
    c.TouchStart(120, 100);
    var emitted := c.TouchEnd(50, 100);
    leaked := first in c.live;
  }
}
