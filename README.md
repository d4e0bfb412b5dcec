# s-swipe, modelled in Dafny

`s-swipe` is a web component that wraps some content and reports swipe gestures
made on it. A touch start records the start point and arms a 10 ms interval
that adds 10 to `totalTime` each time it fires. A touch end records the end
point and stops the interval. If `totalTime` has reached `timeThreshold`, the
touch end emits a four-flag event `{up, right, down, left}`, and in any case it
resets `totalTime` to 0. The flags come from `calculateSwipeDirection`. On each
axis it sets at most one flag, and only when the pointer moved at least a
threshold distance that way. Three properties configure the component:
`timeThreshold` (default 100), `thresholdX` and `thresholdY` (default 30 each).
A watcher on each one rejects `undefined` or `null`.

The project has five modules:

- `Wrappers` (`wrappers.dfy`): `Option`, `Result` and `Outcome`. `None` stands for a JavaScript `undefined` or `null`.
- `Direction` (`direction.dfy`): the classifier, written as a function, and lemmas about it.
- `Settings` (`settings.dfy`): the configuration record, its defaults, the three watchers and assignment of one property.
- `Gesture` (`gesture.dfy`): the session fields as a value, with one function per handler and the interval callback. `Run` gives the meaning of any sequence of touch starts, interval firings and touch ends. The lemmas about `Run` are proved by induction.
- `Component` (`component.dfy`): the class `SSwipe`. Its fields are updated in place. Each method's postcondition ties the new fields, and what it emits, to the functions of `Gesture` and `Settings`.

The host's interval scheduler is part of the state. `live` is the set of interval ids still running. `nextHandle` is the id the next `setInterval` returns. `time` is the id the component holds. `clearInterval(time)` stops only that one interval.

The code does these things. The model keeps each of them and proves it:

- A touch start neither resets `totalTime` nor stops an interval armed earlier. After two touch starts with no touch end between them, the first interval runs forever. Nothing ever clears it (`Gesture.DoubleStartLeaksForever`, `Gesture.LeakedTimerStaysLive`). Its firings keep adding to `totalTime` between gestures.
- The classifier is called with the literal thresholds 30 and 30. The configured `thresholdX` and `thresholdY` are accepted and stored, but nothing reads them (`Gesture.DistanceThresholdsIgnored`).
- A touch end before any touch start is not always ignored. Before any touch start the start coordinates are `undefined`. If `timeThreshold` is 0 or less, the touch end emits an event with no flag set, because every JavaScript comparison with `undefined` is false (`Gesture.EndWithoutStart`).
- Zero and negative thresholds are accepted.

## Model

| member | source | states |
|---|---|---|
| `Direction.CalculateSwipeDirection` | src/components/s-swipe/s-swipe.tsx:102-115 | At most one of left/right and at most one of up/down is set, for any thresholds. `left` holds iff startX > endX and startX - endX >= thresholdX. `right` holds iff startX < endX and endX - startX >= thresholdX. `down` and `up` are the same on Y, with a larger Y meaning down |
| `Direction.NoMovementNoFlags` | src/components/s-swipe/s-swipe.tsx:103-114 | A gesture that ends where it started sets no flag, whatever the thresholds |
| `Direction.BelowThresholdNoFlags` | src/components/s-swipe/s-swipe.tsx:103-114 | A displacement strictly below the threshold on both axes sets no flag |
| `Direction.AtThresholdFlags` | src/components/s-swipe/s-swipe.tsx:104-112 | With positive thresholds, a displacement that reaches the threshold on both axes sets one flag on each axis |
| `Direction.ReverseGestureMirrors` | src/components/s-swipe/s-swipe.tsx:104-112 | Swapping start and end swaps left with right and up with down |
| `Direction.TranslationInvariant` | src/components/s-swipe/s-swipe.tsx:104-112 | Shifting both points by the same offset leaves the result unchanged |
| `Direction.LowerThresholdKeepsFlags` | src/components/s-swipe/s-swipe.tsx:104-112 | Any flag set under some thresholds is still set under lower ones |
| `Settings.Validate` | src/components/s-swipe/s-swipe.tsx:18-38 | A watcher fails iff the new value is undefined or null, with that property's own message. Every number is accepted, including zero and negatives |
| `Settings.Set` | src/components/s-swipe/s-swipe.tsx:16-38 | Assigning a property either fails, iff the value is missing, or sets exactly that property and leaves the other two as they were |
| `Settings.SetCommutes` | src/components/s-swipe/s-swipe.tsx:16-38 | Assignments to two different properties commute |
| `Settings.SetCurrentValueIsIdentity` | src/components/s-swipe/s-swipe.tsx:16-38 | Assigning a property its current value changes nothing |
| `Gesture.InitialIsValid` | src/components/s-swipe/s-swipe.tsx:118-129 | A new component satisfies the session invariant: `totalTime` is 0 and no interval runs |
| `Gesture.TouchStart` | src/components/s-swipe/s-swipe.tsx:56-63 | Keeps the invariant. Sets the start point and holds one newly armed interval. Every interval that was running still runs, and exactly one more does. `totalTime` and the end point are unchanged |
| `Gesture.Tick` | src/components/s-swipe/s-swipe.tsx:60-62 | A firing of a running interval adds exactly 10 to `totalTime`, changes nothing else and keeps the invariant |
| `Gesture.TouchEnd` | src/components/s-swipe/s-swipe.tsx:74-84 | Emits iff `totalTime` on entry is at least `timeThreshold`. The event is the classification of start to end with thresholds 30/30, or no flag before any touch start. Afterwards `totalTime` is 0, the end point is the given one and the start point is unchanged. The held interval is stopped and every other interval still runs |
| `Gesture.Step` | src/components/s-swipe/s-swipe.tsx:56-84 | Every input keeps the invariant, and only a touch end emits |
| `Gesture.Run` | src/components/s-swipe/s-swipe.tsx:56-84 | After any sequence of inputs the invariant holds, so `totalTime` is a non-negative multiple of 10. At most one event is emitted per touch end |
| `Gesture.RunAppend` | src/components/s-swipe/s-swipe.tsx:56-84 | Running two input sequences one after the other is the same as running their concatenation |
| `Gesture.FiresAccumulate` | src/components/s-swipe/s-swipe.tsx:60-62 | Between touch events, n firings of running intervals add exactly 10·n to `totalTime`, change nothing else and emit nothing |
| `Gesture.LeakedTimerStaysLive` | src/components/s-swipe/s-swipe.tsx:56-84 | An interval that runs but is not the one the component holds stays running after any later inputs |
| `Gesture.DoubleStartLeaksForever` | src/components/s-swipe/s-swipe.tsx:56-84 | After two touch starts in a row, the first interval runs whatever inputs follow |
| `Gesture.NonPositiveTimeThresholdEmitsAtEveryEnd` | src/components/s-swipe/s-swipe.tsx:79-83 | With `timeThreshold` at 0 or less, every touch end emits |
| `Gesture.EndWithoutStart` | src/components/s-swipe/s-swipe.tsx:74-84 | A touch end before any touch start emits nothing when `timeThreshold` is positive. Otherwise it emits an event with no flag set |
| `Gesture.DistanceThresholdsIgnored` | src/components/s-swipe/s-swipe.tsx:79-80 | Two configurations with the same `timeThreshold` give the same touch-end result, whatever their `thresholdX` and `thresholdY` |
| `Gesture.SingleGesture` | src/components/s-swipe/s-swipe.tsx:56-84 | On a new component, a start, n firings and an end emit exactly one event iff 10·n >= `timeThreshold`. That event is the 30/30 classification of start to end |
| `Gesture.ScenarioLeft` | src/components/s-swipe/s-swipe.tsx:74-115 | Default properties, 110 ms, from (100,100) to (50,100): only `left` |
| `Gesture.ScenarioDown` | src/components/s-swipe/s-swipe.tsx:74-115 | Default properties, 110 ms, from (100,100) to (100,160): only `down` |
| `Gesture.ScenarioShortMove` | src/components/s-swipe/s-swipe.tsx:74-115 | Default properties, 110 ms, a 15-pixel move: an event with no flag set |
| `Gesture.ScenarioDiagonal` | src/components/s-swipe/s-swipe.tsx:74-115 | Default properties, 110 ms, from (100,100) to (50,160): `left` and `down` together |
| `Gesture.ScenarioTap` | src/components/s-swipe/s-swipe.tsx:74-84 | Default properties, 50 ms: nothing is emitted |
| `Component.SSwipe.constructor` | src/components/s-swipe/s-swipe.tsx:16-129 | Properties take the defaults 100/30/30. `totalTime` is 0, the other session fields are unset and no interval runs |
| `Component.SSwipe.Update` | src/components/s-swipe/s-swipe.tsx:16-38 | Fails iff the value is missing. The configuration becomes `Settings.Set`'s result on success and stays the same on failure. Session fields are unchanged |
| `Component.SSwipe.TouchStart` | src/components/s-swipe/s-swipe.tsx:56-63 | The new fields are `Gesture.TouchStart` of the old ones. The configuration is unchanged |
| `Component.SSwipe.Tick` | src/components/s-swipe/s-swipe.tsx:60-62 | The new fields are `Gesture.Tick` of the old ones |
| `Component.SSwipe.TouchEnd` | src/components/s-swipe/s-swipe.tsx:74-84 | The new fields and the emitted event are `Gesture.TouchEnd` of the old fields and configuration |
| `Component.IgnoredThresholdClient` | src/components/s-swipe/s-swipe.tsx:18-30 | A null `thresholdX` is rejected with "Invalid threshold X". With `thresholdX` set to 1000, a 50-pixel move to the left still emits `left` |
| `Component.DoubleStartClient` | src/components/s-swipe/s-swipe.tsx:56-84 | After start, start and end, the first interval is still running |

## Left out

- Rendering (the wrapping `div`, the slot and the stylesheet) is user interface, with no logic to model.
- The component decorators and the event emitter are not modelled. An emitted event is the return value of the touch-end handler.
- Real scheduling of `setInterval` is not modelled. The firings of an interval are explicit inputs. A firing is allowed only while its interval runs, and nothing ties firings to wall-clock time.
- Reading coordinates out of DOM touch events is not modelled. The coordinates are parameters.
- Coordinates and thresholds are JavaScript numbers (doubles). They are modelled as unbounded integers, so fractions, `NaN` and infinities are not covered. The logic only compares and subtracts them.
- Non-numeric property values (a string, say) are outside the model. A property value is an optional integer.
- `Component.SSwipe.Update`: a rejected value is modelled as not stored. In the host framework the property may already hold the new value when its watcher throws, but that ordering is framework behaviour and is not part of this model.
- `Gesture.Run`: the configuration is fixed for the whole input sequence. Changing properties between gestures is modelled only by `Component.SSwipe.Update`.
- `stencil.config.ts` is build configuration and is not part of this model.
