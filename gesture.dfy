/**
 * The gesture session of the `s-swipe` component as values: the touch-start and
 * touch-end handlers, the body of the 10 ms interval, and the meaning of a whole
 * sequence of such events. The host's interval scheduler is part of the state:
 * `live` holds the ids of the intervals still running, `nextHandle` the id the
 * next `setInterval` returns, and `time` the id the component keeps.
 */
module Gesture {
  import opened Wrappers
  import opened Direction
  import Settings

  /** Period of the interval, and what each firing adds to `totalTime`. */
  const TickMillis := 10

  /** The distance thresholds written literally at the classifier's call site. */
  const SwipeThresholdX := 30
  const SwipeThresholdY := 30

  /** The first id the scheduler hands out. */
  const FirstHandle: nat := 1

  /** The component's session fields; `None` is a field still `undefined`. */
  datatype Session = Session(
    startX: Option<int>, startY: Option<int>,
    endX: Option<int>, endY: Option<int>,
    time: Option<nat>,
    totalTime: int,
    live: set<nat>,
    nextHandle: nat)

  /** A freshly created component: only `totalTime` is initialised, and no interval runs. */
  const Initial := Session(None, None, None, None, None, 0, {}, FirstHandle)

  /**
   * What every reachable session satisfies: `totalTime` is a non-negative
   * multiple of the tick; the start fields, the end fields and the held timer
   * are set together; every id in use was handed out by the scheduler; and
   * before the first touch start nothing runs and nothing has accumulated.
   */
  predicate Valid(s: Session) {
    && s.totalTime >= 0 && s.totalTime % TickMillis == 0
    && (s.startX.Some? <==> s.startY.Some?)
    && (s.endX.Some? <==> s.endY.Some?)
    && (s.time.Some? <==> s.startX.Some?)
    && (s.time.Some? ==> s.time.value < s.nextHandle)
    && (s.time.None? ==> s.live == {} && s.totalTime == 0)
    && (forall h :: h in s.live ==> h < s.nextHandle)
  }

  lemma InitialIsValid()
    ensures Valid(Initial) && Initial.totalTime == 0 && Initial.live == {}
  {
  }

  /**
   * `handleTouchStart`: store the start point and arm a new interval. It
   * neither resets `totalTime` nor clears an interval armed before.
   */
  function TouchStart(s: Session, x: int, y: int): (r: Session)
    requires Valid(s)
    ensures Valid(r)
    ensures r.startX == Some(x) && r.startY == Some(y)
    ensures r.endX == s.endX && r.endY == s.endY
    ensures r.totalTime == s.totalTime
    // one new interval, not one of the running ones, is now held
    ensures r.time.Some? && r.time.value in r.live && r.time.value !in s.live
    // every interval that ran still runs, and exactly one more does
    ensures s.live < r.live && |r.live| == |s.live| + 1
  {
    s.(startX := Some(x), startY := Some(y),
       time := Some(s.nextHandle),
       live := s.live + {s.nextHandle},
       nextHandle := s.nextHandle + 1)
  }

  /** The interval callback: one firing of a running interval adds one tick. */
  function Tick(s: Session, handle: nat): (r: Session)
    requires Valid(s) && handle in s.live
    ensures Valid(r)
    ensures r.totalTime == s.totalTime + TickMillis
    ensures r.(totalTime := s.totalTime) == s
  {
    s.(totalTime := s.totalTime + TickMillis)
  }

  /** `clearInterval(time)`: stops the held interval, if any; a stopped or absent one is a no-op. */
  function Cleared(live: set<nat>, time: Option<nat>): set<nat> {
    match time
    case None => live
    case Some(h) => live - {h}
  }

  /**
   * The classifier call of `handleTouchEnd`, with the literal thresholds. Before
   * any touch start the start fields are `undefined`, every comparison with them
   * is false in JavaScript, and no flag is set.
   */
  function Classify(s: Session, endX: int, endY: int): SwipeEvent {
    match (s.startX, s.startY)
    case (Some(sx), Some(sy)) =>
      CalculateSwipeDirection(sx, sy, endX, endY, SwipeThresholdX, SwipeThresholdY)
    case _ => NoSwipe
  }

  /** The new session and what was emitted, if anything. */
  datatype Reaction = Reaction(session: Session, emitted: Option<SwipeEvent>)

  /**
   * `handleTouchEnd`: store the end point, stop the held interval, emit the
   * classification when enough time has accumulated, and reset `totalTime`.
   */
  function TouchEnd(config: Settings.Config, s: Session, x: int, y: int): (r: Reaction)
    requires Valid(s)
    ensures Valid(r.session)
    // a swipe is reported exactly when the accumulated time reaches the time threshold
    ensures r.emitted.Some? <==> s.totalTime >= config.timeThreshold
    // ... and it is the classification of start to end with 30/30, not the configured thresholds
    ensures r.emitted.Some? && s.startX.Some? ==>
              r.emitted.value == CalculateSwipeDirection(s.startX.value, s.startY.value, x, y,
                                                         SwipeThresholdX, SwipeThresholdY)
    ensures r.emitted.Some? && s.startX.None? ==> r.emitted.value == NoSwipe
    ensures r.session.totalTime == 0
    ensures r.session.endX == Some(x) && r.session.endY == Some(y)
    ensures r.session.startX == s.startX && r.session.startY == s.startY
    // the held interval no longer runs; every other one still does
    ensures r.session.time == s.time
    ensures s.time.Some? ==> s.time.value !in r.session.live
    ensures forall h :: h in r.session.live <==> h in s.live && s.time != Some(h)
  {
    var ended := s.(endX := Some(x), endY := Some(y), live := Cleared(s.live, s.time));
    var emitted := if s.totalTime >= config.timeThreshold then Some(Classify(s, x, y)) else None;
    Reaction(ended.(totalTime := 0), emitted)
  }

  /** The inputs the component receives: touch start, a firing of interval `handle`, touch end. */
  datatype Input = Start(x: int, y: int) | Fire(handle: nat) | End(x: int, y: int)

  /** One input. A stopped interval never fires again, so its firing changes nothing. */
  function Step(config: Settings.Config, s: Session, input: Input): (r: Reaction)
    requires Valid(s)
    ensures Valid(r.session)
    ensures r.emitted.Some? ==> input.End?
  {
    match input
    case Start(x, y) => Reaction(TouchStart(s, x, y), None)
    case Fire(h) => Reaction(if h in s.live then Tick(s, h) else s, None)
    case End(x, y) => TouchEnd(config, s, x, y)
  }

  /** The number of touch ends in a sequence of inputs. */
  function Ends(inputs: seq<Input>): nat {
    if inputs == [] then 0 else (if inputs[0].End? then 1 else 0) + Ends(inputs[1..])
  }

  /** The session after a sequence of inputs, and the events emitted on the way, in order. */
  datatype History = History(session: Session, emitted: seq<SwipeEvent>)

  function Emitted(e: Option<SwipeEvent>): seq<SwipeEvent> {
    if e.Some? then [e.value] else []
  }

  /**
   * Any sequence of inputs keeps the session valid (so `totalTime` stays a
   * non-negative multiple of 10), and emits at most once per touch end.
   */
  function Run(config: Settings.Config, s: Session, inputs: seq<Input>): (r: History)
    requires Valid(s)
    ensures Valid(r.session)
    ensures |r.emitted| <= Ends(inputs)
    decreases |inputs|
  {
    if inputs == [] then History(s, [])
    else
      var first := Step(config, s, inputs[0]);
      var rest := Run(config, first.session, inputs[1..]);
      History(rest.session, Emitted(first.emitted) + rest.emitted)
  }

  /** Running two sequences one after the other is running their concatenation. */
  lemma {:induction false} RunAppend(config: Settings.Config, s: Session, a: seq<Input>, b: seq<Input>)
    requires Valid(s)
    ensures var ra := Run(config, s, a);
            var rb := Run(config, ra.session, b);
            Run(config, s, a + b) == History(rb.session, ra.emitted + rb.emitted)
    decreases |a|
  {
    if a == [] {
      assert a + b == b;
    } else {
      assert (a + b)[0] == a[0];
      assert (a + b)[1..] == a[1..] + b;
      var first := Step(config, s, a[0]);
      RunAppend(config, first.session, a[1..], b);
    }
  }

  /** `n` firings of interval `handle`. */
  function Fires(handle: nat, n: nat): (r: seq<Input>)
    ensures |r| == n && forall i :: 0 <= i < n ==> r[i] == Fire(handle)
  {
    seq(n, _ => Fire(handle))
  }

  /** While no touch event arrives, each firing of a running interval adds exactly 10 ms. */
  lemma {:induction false} FiresAccumulate(config: Settings.Config, s: Session, inputs: seq<Input>)
    requires Valid(s)
    requires forall i :: 0 <= i < |inputs| ==> inputs[i].Fire? && inputs[i].handle in s.live
    ensures Run(config, s, inputs) == History(s.(totalTime := s.totalTime + TickMillis * |inputs|), [])
    decreases |inputs|
  {
    if inputs != [] {
      var next := Tick(s, inputs[0].handle);
      assert next.live == s.live;
      FiresAccumulate(config, next, inputs[1..]);
    }
  }

  /**
   * An interval that runs but is not the one the component holds is never
   * stopped again: no later input can reach it.
   */
  lemma {:induction false} LeakedTimerStaysLive(config: Settings.Config, s: Session, h: nat, inputs: seq<Input>)
    requires Valid(s) && h in s.live && s.time != Some(h)
    ensures var r := Run(config, s, inputs).session;
            h in r.live && r.time != Some(h)
    decreases |inputs|
  {
    if inputs != [] {
      var first := Step(config, s, inputs[0]);
      LeakedTimerStaysLive(config, first.session, h, inputs[1..]);
    }
  }

  /**
   * Two touch starts without a touch end between them leave the first interval
   * running forever, whatever comes after.
   */
  lemma DoubleStartLeaksForever(config: Settings.Config, s: Session,
                                x1: int, y1: int, x2: int, y2: int, inputs: seq<Input>)
    requires Valid(s)
    ensures s.nextHandle in Run(config, s, [Start(x1, y1), Start(x2, y2)] + inputs).session.live
  {
    var twice := [Start(x1, y1), Start(x2, y2)];
    RunAppend(config, s, twice, inputs);
    var s1 := TouchStart(s, x1, y1);
    var s2 := TouchStart(s1, x2, y2);
    assert twice[1..] == [Start(x2, y2)];
    assert [Start(x2, y2)][1..] == [];
    assert Run(config, s2, []).session == s2;
    assert Run(config, s1, [Start(x2, y2)]).session == s2;
    assert Run(config, s, twice).session == s2;
    LeakedTimerStaysLive(config, s2, s.nextHandle, inputs);
  }

  /** With a time threshold of zero or less, every touch end emits. */
  lemma {:induction false} NonPositiveTimeThresholdEmitsAtEveryEnd(config: Settings.Config, s: Session, inputs: seq<Input>)
    requires Valid(s) && config.timeThreshold <= 0
    ensures |Run(config, s, inputs).emitted| == Ends(inputs)
    decreases |inputs|
  {
    if inputs != [] {
      var first := Step(config, s, inputs[0]);
      NonPositiveTimeThresholdEmitsAtEveryEnd(config, first.session, inputs[1..]);
    }
  }

  /** A touch end before any touch start emits nothing unless the time threshold is zero or less, and then no flag. */
  lemma EndWithoutStart(config: Settings.Config, s: Session, x: int, y: int)
    requires Valid(s) && s.time.None?
    ensures TouchEnd(config, s, x, y).emitted
         == if config.timeThreshold <= 0 then Some(NoSwipe) else None
  {
  }

  /** Only the time threshold of the configuration matters to a touch end; the distance thresholds do not. */
  lemma DistanceThresholdsIgnored(c1: Settings.Config, c2: Settings.Config, s: Session, x: int, y: int)
    requires Valid(s) && c1.timeThreshold == c2.timeThreshold
    ensures TouchEnd(c1, s, x, y) == TouchEnd(c2, s, x, y)
  {
  }

  /** One gesture on a new component: touch start, `ticks` firings of its interval, touch end. */
  function Gesture(startX: int, startY: int, ticks: nat, endX: int, endY: int): seq<Input> {
    [Start(startX, startY)] + Fires(FirstHandle, ticks) + [End(endX, endY)]
  }

  /** On a new component, a single gesture emits exactly when it lasted long enough, and classifies with 30/30. */
  lemma SingleGesture(config: Settings.Config, startX: int, startY: int, ticks: nat, endX: int, endY: int)
    ensures Run(config, Initial, Gesture(startX, startY, ticks, endX, endY)).emitted
         == if TickMillis * ticks >= config.timeThreshold
            then [CalculateSwipeDirection(startX, startY, endX, endY, SwipeThresholdX, SwipeThresholdY)]
            else []
  {
    var start := [Start(startX, startY)];
    var fires := Fires(FirstHandle, ticks);
    var end := [End(endX, endY)];
    var s1 := TouchStart(Initial, startX, startY);
    assert Run(config, Initial, start) == History(s1, []);
    RunAppend(config, Initial, start, fires);
    FiresAccumulate(config, s1, fires);
    var s2 := s1.(totalTime := TickMillis * ticks);
    RunAppend(config, Initial, start + fires, end);
    assert Run(config, s2, end).emitted == Emitted(TouchEnd(config, s2, endX, endY).emitted);
  }

  /** A swipe left after 110 ms with the default configuration. */
  lemma ScenarioLeft()
    ensures Run(Settings.Default, Initial, Gesture(100, 100, 11, 50, 100)).emitted
         == [NoSwipe.(left := true)]
  {
    SingleGesture(Settings.Default, 100, 100, 11, 50, 100);
  }

  /** A swipe down after 110 ms. */
  lemma ScenarioDown()
    ensures Run(Settings.Default, Initial, Gesture(100, 100, 11, 100, 160)).emitted
         == [NoSwipe.(down := true)]
  {
    SingleGesture(Settings.Default, 100, 100, 11, 100, 160);
  }

  /** A 15-pixel move is reported, but with no flag set. */
  lemma ScenarioShortMove()
    ensures Run(Settings.Default, Initial, Gesture(100, 100, 11, 115, 100)).emitted == [NoSwipe]
  {
    SingleGesture(Settings.Default, 100, 100, 11, 115, 100);
  }

  /** A diagonal swipe sets one flag on each axis. */
  lemma ScenarioDiagonal()
    ensures Run(Settings.Default, Initial, Gesture(100, 100, 11, 50, 160)).emitted
         == [NoSwipe.(left := true, down := true)]
  {
    SingleGesture(Settings.Default, 100, 100, 11, 50, 160);
  }

  /** A 50 ms touch is a tap: nothing is emitted. */
  lemma ScenarioTap()
    ensures Run(Settings.Default, Initial, Gesture(100, 100, 5, 50, 100)).emitted == []
  {
    SingleGesture(Settings.Default, 100, 100, 5, 50, 100);
  }
}
